# Herbário Digital — a verified model of the catalogue, gallery filter and view switch

The Herbário Digital is a Streamlit page. It shows fourteen fixed
medicinal-plant records (`PLANTAS`) as a grid of cards. A category selector
and a search box narrow the grid. A "Ver Detalhes" button opens a record's
detail view, and a back button returns to the gallery. This project models
the page's logic in Dafny and proves properties of it:

- `text.dfy` (module `Text`) models the two Python string operations the
  query uses. `Contains` is `pat in s` on strings. It is proved equal to an
  index-based definition of "substring". `Lower` is `str.lower`.
- `catalog.dfy` (module `Catalog`) holds the `Planta` record and the
  `PLANTAS` table, copied field for field. It also holds the detail lookup
  `next((p for p in PLANTAS if p.id == …), None)` as `FindById`, and the
  three-way evidence notice of the detail view as `EvidenceAlert`.
- `gallery.dfy` (module `Gallery`) holds the two-stage gallery filter. The
  category stage is skipped for `"Todas"`. The search stage is skipped for
  an empty search and is case-insensitive over the name and the
  description. The file also proves that both stages are order-preserving
  filters of the table.
- `cards.dfy` (module `Cards`) models the loop over the filtered records. It
  covers the grid column `idx % 4`, the image file
  `imagens_plantas/<id>.png`, the image loader and the button key
  `btn_<id>`. The loop is a method proved against the function that
  specifies the layout.
- `session.dfy` (module `Session`) models `st.session_state` as a class with
  the two keys the page keeps (`view`, `selected_plant_id`). It covers
  `change_view`, the defaults set at the top of every run, and which screen
  one run renders. The rendering function and the navigation lemmas take
  the catalogue as a parameter. They hold for every catalogue whose ids are
  distinct, and `PLANTAS` is one (`Catalog.PlantasWellFormed`). `Session.Run`
  renders from `PLANTAS`, as the page does.

The view names are the code's own, `'home'` and `'detail'`. The
`selected_plant_id` key holds Python's `None` until a card is clicked. In
the model it is `Option<string>` inside a `Slot`, because the key itself can
also be missing.

## Model

| member | source | states |
|---|---|---|
| Text.Contains | app.py:275-276 | Python's `pat in s` as a scan: the empty pattern is in every string; a found pattern is no longer than the string, and its first character occurs in it |
| Text.ContainsIsSubstring | app.py:275-276 | the `in` test on strings holds exactly when the pattern occurs at some index of the string, the empty pattern included |
| Text.ContainsAt | app.py:275-276 | an occurrence at a given index makes the `in` test true |
| Text.ContainsChar | app.py:348 | every character of a pattern found by `in` is a character of the searched string |
| Text.LowerChar | app.py:276 | the lower case of a character is never upper-case, and a character that is not upper-case is unchanged |
| Text.Lower | app.py:276 | `str.lower` keeps the length of the string and leaves no upper-case character |
| Text.LowerAppend | app.py:276 | lowering a concatenation is concatenating the lowered parts |
| Text.LowerSlice | app.py:276 | lowering a slice is slicing the lowered string |
| Text.LowerIdempotent | app.py:276 | lowering an already lowered string changes nothing |
| Text.LowerOfLower | app.py:276 | a string with no upper-case character is its own lower case |
| Text.ContainsLowered | app.py:276 | whatever occurs in a string still occurs once both sides are lowered, so the case-insensitive search finds every exact match |
| Catalog.PlantasColumns | app.py:163-193 | record k of the table has the id, name, category, description and evidence level listed in that table row |
| Catalog.PlantasWellFormed | app.py:178-193 | the table has fourteen records and no two share an id |
| Catalog.FindById | app.py:318 | the lookup returns a record of the table with exactly the selected id, and returns `None` exactly when no record has that id (a `None` id included) |
| Catalog.FindByIdFirst | app.py:318 | the lookup returns the first record with the id, in table order |
| Catalog.FindByIdOfMember | app.py:318 | in a table with distinct ids, looking up a record's own id returns that record |
| Catalog.EvidenceAlert | app.py:347-349 | success exactly for the level "Alto"; error exactly for other levels that contain "Risco"; a warning "Nível: <level>" for every other level |
| Catalog.NoRisco | app.py:348 | a level without a capital R does not contain "Risco", so it never gets the error notice |
| Catalog.LevelAlert | app.py:347-349 | of the levels the table uses, exactly "Alto" gets the success notice, exactly "Risco" the error notice, and "Muito Baixo", "Baixo" and "Moderado" a warning |
| Catalog.NiveisColumn | app.py:179-192 | the table uses only those five levels, and "Risco" only in its last row, bulbine's |
| Catalog.PlantasEvidence | app.py:179-192 | among the fourteen records exactly bulbine gets the error notice (`st.error`), and a record gets the success notice exactly when its level is "Alto" |
| Gallery.Filter | app.py:275-276 | a list comprehension with a condition keeps exactly the elements of the input that satisfy the condition, and is never longer than the input |
| Gallery.FilterIsSubsequence | app.py:275-276 | a filtered list is a subsequence of its input, so order is preserved |
| Gallery.SubsequenceMultiset | app.py:275-276 | a subsequence contains no record more often than its source does |
| Gallery.SubsequenceDistinctIds | app.py:275-276 | a subsequence of a list with distinct ids has distinct ids |
| Gallery.FilterAgree | app.py:275-276 | two conditions that agree on every element give the same filtered list |
| Gallery.FilterKeepsAll | app.py:275-276 | a condition that holds for every element keeps the list unchanged |
| Gallery.FilterFuse | app.py:274-276 | filtering twice in a row is filtering once by the conjunction of the two conditions |
| Gallery.FilterCommutes | app.py:274-276 | two successive filters can be applied in either order |
| Gallery.CategoryStage | app.py:275 | "Todas" keeps the list unchanged; any other choice keeps exactly the records whose category contains the chosen text |
| Gallery.SearchStage | app.py:276 | an empty search keeps the list unchanged; otherwise a record is kept exactly when its lowered name or lowered description contains the lowered search text |
| Gallery.MatchesSearch | app.py:276 | the search test of a record: the lowered search text occurs in its lowered name or lowered description; an empty text matches every record, and a text longer than both name and description matches none |
| Gallery.GalleryFilter | app.py:274-276 | a record appears in the gallery exactly when it is in the table and passes both stages; with "Todas" and no search text the gallery is the whole table |
| Gallery.Shown | app.py:275-276 | a record passes both stages; with "Todas" and no search text every record passes, and any category text other than "Todas" that is longer than the record's category, or a non-empty search text longer than both its name and its description, never passes |
| Gallery.GalleryFilterIsOneFilter | app.py:274-276 | the two stages together are a single filter by the conjunction of both conditions |
| Gallery.GalleryFilterIsSubsequence | app.py:274-276 | the gallery is a subsequence of the table in table order, repeats no record, and keeps ids distinct |
| Gallery.StagesCommute | app.py:275-276 | applying the search stage before the category stage gives the same gallery |
| Gallery.SearchIgnoresCase | app.py:276 | searching for a text and for its lower case show the same gallery |
| Gallery.SearchFindsExactMatches | app.py:276 | a record in the chosen category whose name or description contains the search text verbatim is always shown |
| Gallery.SearchForUnseenCharacter | app.py:276 | a search containing a character that appears in no lowered name or description shows an empty gallery |
| Gallery.NotHormonal | app.py:275 | a category lacking the letter H or l cannot contain "Hormonal" |
| Gallery.StartsHormonal | app.py:275 | a category that starts with "Hormonal" contains it |
| Gallery.HormonalCategories | app.py:179-192 | exactly the categories of rows 0, 4 and 13 of the table contain "Hormonal" |
| Gallery.HormonalRecords | app.py:179-192 | in the table, exactly tribulus, long jack and bulbine have a category containing "Hormonal" |
| Gallery.FilterKeepsOne | app.py:275-276 | a kept record followed by dropped ones contributes just itself, ahead of what is kept after them |
| Gallery.FilterKeepsTwo | app.py:275-276 | a condition that holds at exactly two positions of a suffix keeps exactly those two records, in order |
| Gallery.FilterKeepsThree | app.py:275-276 | a condition that holds at exactly three positions keeps exactly those three records, in order |
| Gallery.HormonalGallery | app.py:274-276 | choosing "Hormonal" with no search text shows tribulus, long jack and bulbine ("Hormonal (Exp)"), in that order |
| Gallery.MacaName | app.py:180 | the name of the second record begins with "Maca" |
| Gallery.FindsMaca | app.py:276 | with "Todas", the search "maca" shows every record whose name begins with "Maca" |
| Gallery.MacaSearch | app.py:274-276 | with "Todas", the search "maca" shows the Maca Peruana record |
| Gallery.FilterStep | app.py:275-276 | filtering from position k keeps the element at k exactly when the condition holds, followed by the filtered rest |
| Gallery.FilterSkip | app.py:275-276 | a stretch of elements that all fail the condition contributes nothing to the filtered list |
| Cards.ImagePath | app.py:283 | the image file of an id is `imagens_plantas/` then the id then `.png`, so the id can be read back from the path |
| Cards.IdOfImagePath | app.py:283 | an id recovered from an image path rebuilds that same path |
| Cards.ImagePathRoundTrip | app.py:283 | the image path of an id gives back that id |
| Cards.ImagePathInjective | app.py:283 | distinct ids have distinct image files |
| Cards.ButtonKey | app.py:309 | the widget key of a card's button is `btn_` followed by the record's id, so the id can be read back from the key |
| Cards.ButtonKeyInjective | app.py:309 | distinct ids have distinct button keys |
| Cards.LoadImage | app.py:22-31 | the loader returns the encoded file exactly when the file exists and can be read, and `None` otherwise |
| Cards.ShowsPlaceholder | app.py:286-294 | a card shows its image exactly when the loader returned a non-empty text, as the truth test `if img_b64:` does; otherwise it shows the placeholder |
| Cards.CardAt | app.py:280-309 | the card for position idx shows the record, sits in one of the four columns, uses the record's own image file, and shows the placeholder exactly when that file is missing or empty |
| Cards.Layout | app.py:279-307 | the grid has one card per filtered record |
| Cards.LayoutCards | app.py:279-307 | the loop over `enumerate(filtered)` produces exactly the cards the layout specifies, in gallery order |
| Cards.LayoutFillsRows | app.py:278-280 | card i shows record i, so the cards show the gallery records in gallery order; every card is in one of the four columns; the first card is in column 0 and each next card is in the next column, wrapping after the fourth |
| Cards.LayoutImages | app.py:283-294 | each card uses its own record's image file; it shows the placeholder exactly when that file is missing or its encoded content is empty, and otherwise shows that file |
| Cards.LayoutKeysDistinct | app.py:283-309 | records with distinct ids get pairwise distinct button keys and image paths |
| Cards.GalleryButtonKeysDistinct | app.py:274-309 | for any category and search text, the buttons of the gallery of a catalogue with distinct ids, as `PLANTAS` is, have pairwise distinct widget keys |
| Session.Initialised | app.py:199-200 | after the defaults both keys are present; a missing view becomes "home" and a missing selection becomes `None`; a key already present keeps its value |
| Session.InitialisedIdempotent | app.py:199-200 | setting the defaults on every run is the same as setting them once |
| Session.SessionState.constructor | app.py:199-200 | a new browser session has neither key |
| Session.SessionState.ChangeView | app.py:195-197 | `change_view` overwrites both keys; the id defaults to `None` |
| Session.SessionState.InitDefaults | app.py:199-200 | the new session state is the defaults applied to the old one |
| Session.Render | app.py:256-319 | the home screen is shown exactly when the view is "home", with no more cards than the catalogue has records; the cards show exactly the gallery of both filter stages, record for record and in catalogue order; in the view "detail" a detail screen is shown exactly when some record has the selected id, and it shows the first such record with its own image file and its evidence notice |
| Session.Run | app.py:199-319 | one run applies the defaults to the session, then renders the screen for the updated session from `PLANTAS` |
| Session.Offers | app.py:309-322 | the home screen offers one details button per card and the detail screen offers the back button; an empty screen offers no button at all |
| Session.Next | app.py:309-321 | pressing an offered button leaves both keys present; a card's details button leads to the view "detail" with an id selected; the back button, and only it, leads to the home view, with the selection reset to `None` |
| Session.ClickCard | app.py:309-310 | pressing the details button of a card the home screen offers switches to the detail view with that card's id selected |
| Session.GoBack | app.py:319-321 | pressing the back button, which only a detail screen offers, switches to the home view with nothing selected |
| Session.FreshSessionStartsHome | app.py:199-200 | a new session starts on the home view with nothing selected, a reachable state |
| Session.ReachableIsInitialised | app.py:199-200 | in every reachable state both keys are present, so the defaults change nothing |
| Session.PressLeadsToReachable | app.py:279-322 | whatever a run shows, every button its screen offers leads to a reachable state, because the cards are those of catalogue records |
| Session.DetailOfRecord | app.py:317-342 | in a catalogue with distinct ids, the detail view of any record is reachable and shows that record, its own image file and its evidence notice |
| Session.ClickShowsDetail | app.py:279-319 | in a catalogue with distinct ids, pressing any card button a home screen offers leads to a run that shows that card's record in detail, whatever the selectors then hold |
| Session.BackShowsGallery | app.py:319-321 | pressing the back button of a detail screen leads to a run that shows the gallery for the selector values then current |
| Session.ReachableShowsSomething | app.py:317-322 | in a catalogue with distinct ids, no reachable state renders an empty screen; a detail view always finds the record it was opened for and offers the back button |
| Session.UnknownIdShowsNothing | app.py:318-319 | a selected id that no record has, `None` included, leaves the detail view empty instead of failing |
| Session.UnknownIdIsDeadEnd | app.py:318-322 | a detail view whose id no record has is a dead end: its screen offers no button, and the defaults of the next run leave the session as it is |
| Session.BulbineDetail | app.py:318-349 | opening bulbine shows its record with level "Risco" and the error notice |

## Left out

- Rendering is not modelled. The HTML and CSS markup, the sidebar, the header, the columns and the styling of Streamlit's widgets are left out. A screen is modelled by the data it shows.
- The widgets' values are parameters of `Session.Run`. These are the search text and the selected category. The option list of the category selector (line 272) only limits the values a user can pick. The filter is modelled for every category text.
- `st.rerun()` (lines 311 and 322) is not modelled as a call. A press changes the session, and the next run is a fresh call of `Session.Run`. The lemmas `ClickShowsDetail` and `BackShowsGallery` describe that next run. A button can only be pressed on the screen that draws it (`Session.Offers`). The sidebar's links are not buttons of the model.
- Cards.LoadImage: file I/O and base64 encoding are not modelled. The readable files and their encoded contents are a map given as a parameter. An unreadable file counts as a missing one.
- The `st.cache_data` memoisation of the loader and of the background is not modelled. It does not change any result as long as the image files do not change while the app runs: a cached `None` for a missing file would otherwise stay on later runs. The model takes the readable files as a parameter of each run and does not tie runs together.
- `get_processed_background` (Pillow image processing, a floating-point brightness factor) and the logo HTML are not modelled. They only affect the look of the page.
- The animation delay `idx * 0.03` (line 297) is a floating-point style value and is not modelled.
- Text.Lower: models `str.lower` only for ASCII `A`–`Z` and the Latin-1 capitals U+00C0–U+00DE other than U+00D7. Every other character is left unchanged. This covers every letter of the table's texts. Python lowers many more characters, and some of those change the length of the string.
- Session.Render: the detail screen includes the record, its image and its evidence notice. It does not include the category box and the other fields the detail page prints verbatim (lines 344-378).
- Session.Render: requires the `view` key to be present, and in the detail view also `selected_plant_id`. The script would stop with a `KeyError` otherwise. After the defaults at lines 199-200 both keys are always present (`Session.ReachableIsInitialised`).
- Gallery.SearchForUnseenCharacter: this is stated for any table and any character. No concrete search text is worked through against the fourteen records. The lemma cannot give "zzz" an empty gallery, because the lowered descriptions of maca ("Raiz andina …") and tetradium ("Wu Zhu Yu …") contain 'z'.
- `extrair_imagens.py` (page extraction from the PDF) and `otimizar.py` (batch image re-encoding) are offline asset scripts outside the page's logic. They are not part of this model.
