/** The per-browser session state (`st.session_state`) restricted to the two
    keys the app keeps there, the `change_view` navigation between the home
    and detail views, and which screen one run of the script renders. */
module Session {
  import opened Catalog
  import opened Gallery
  import opened Cards

  const HOME := "home"
  const DETAIL := "detail"

  /** A key of the session dictionary: absent, or present with a value. */
  datatype Slot<T> = Absent | Present(value: T)

  /** The two keys the app uses: `view` and `selected_plant_id` (whose value
      may itself be Python's `None`). */
  datatype SessionValue = SessionValue(view: Slot<string>, selectedPlantId: Slot<Option<string>>)

  /** The defaults of lines 199-200: a missing key gets its default ("home",
      `None`); a key that is present keeps its value. */
  function Initialised(s: SessionValue): (r: SessionValue)
    ensures r.view.Present? && r.selectedPlantId.Present?
    ensures s.view.Present? ==> r.view == s.view
    ensures s.selectedPlantId.Present? ==> r.selectedPlantId == s.selectedPlantId
    ensures s.view.Absent? ==> r.view == Present(HOME)
    ensures s.selectedPlantId.Absent? ==> r.selectedPlantId == Present(None)
  {
    SessionValue(
      if s.view.Absent? then Present(HOME) else s.view,
      if s.selectedPlantId.Absent? then Present(None) else s.selectedPlantId)
  }

  /** Setting the defaults twice is setting them once. */
  lemma InitialisedIdempotent(s: SessionValue)
    ensures Initialised(Initialised(s)) == Initialised(s)
  {
  }

  /** The session dictionary of one browser session. */
  class SessionState {
    var view: Slot<string>
    var selectedPlantId: Slot<Option<string>>

    function Value(): SessionValue
      reads this
    {
      SessionValue(view, selectedPlantId)
    }

    /** A new browser session: neither key is set yet. */
    constructor ()
      ensures Value() == SessionValue(Absent, Absent)
    {
      view := Absent;
      selectedPlantId := Absent;
    }

    /** `change_view` (lines 195-197): both keys are overwritten; the id
        defaults to `None`. */
    method ChangeView(view: string, plantId: Option<string> := None)
      modifies this
      ensures this.view == Present(view) && selectedPlantId == Present(plantId)
    {
      this.view := Present(view);
      selectedPlantId := Present(plantId);
    }

    /** Lines 199-200, run at the top of every run of the script. */
    method InitDefaults()
      modifies this
      ensures Value() == Initialised(old(Value()))
    {
      if view.Absent? {
        view := Present(HOME);
      }
      if selectedPlantId.Absent? {
        selectedPlantId := Present(None);
      }
    }
  }

  /** What a run of the script shows below the sidebar. */
  datatype Screen =
    | HomeScreen(cards: seq<Card>)
    | DetailScreen(plant: Planta, image: Option<string>, evidence: Alert)
    | EmptyScreen

  /** The script reads `view`, and `selected_plant_id` only in the detail
      branch; a missing key there would stop the script. */
  predicate Renderable(s: SessionValue)
  {
    s.view.Present? && (s.view.value == DETAIL ==> s.selectedPlantId.Present?)
  }

  /** Lines 256-379, over the catalogue `table` (the page uses `PLANTAS`): the
      home view shows the cards of the filtered gallery; the detail view shows
      the selected record with its image (lines 327-342) and its evidence
      notice, or nothing when no record has the selected id; any other view
      shows nothing. */
  function Render(table: seq<Planta>, s: SessionValue, cat: string, search: string, files: map<string, string>): (screen: Screen)
    requires Renderable(s)
    ensures screen.HomeScreen? <==> s.view.value == HOME
    ensures screen.HomeScreen? ==> |screen.cards| <= |table|
    ensures screen.HomeScreen? ==> forall i :: 0 <= i < |screen.cards| ==>
      screen.cards[i].plant in table && Shown(screen.cards[i].plant, cat, search)
    ensures screen.HomeScreen? ==> CardPlants(screen.cards) == GalleryFilter(table, cat, search)
    ensures screen.HomeScreen? ==> IsSubsequence(CardPlants(screen.cards), table)
    ensures screen.HomeScreen? ==> forall p :: p in CardPlants(screen.cards) <==> p in table && Shown(p, cat, search)
    ensures screen.DetailScreen? ==>
      s.view.value == DETAIL && screen.plant in table && s.selectedPlantId.value == Some(screen.plant.id)
    ensures s.view.value == DETAIL ==> (screen.DetailScreen? <==> FindById(table, s.selectedPlantId.value).Some?)
    ensures screen.DetailScreen? ==> FindById(table, s.selectedPlantId.value) == Some(screen.plant)
    ensures screen.DetailScreen? ==>
      screen.image == LoadImage(files, ImagePath(screen.plant.id)) && screen.evidence == EvidenceAlert(screen.plant.nivelEvidencia)
  {
    if s.view.value == HOME then
      var filtered := GalleryFilter(table, cat, search);
      LayoutFillsRows(filtered, files);
      GalleryFilterIsSubsequence(table, cat, search);
      HomeScreen(Layout(filtered, files))
    else if s.view.value == DETAIL then
      match FindById(table, s.selectedPlantId.value)
      case Some(p) => DetailScreen(p, LoadImage(files, ImagePath(p.id)), EvidenceAlert(p.nivelEvidencia))
      case None => EmptyScreen
    else
      EmptyScreen
  }

  /** One run of the script: the defaults are put in place, then the screen
      for the session's view is rendered from the catalogue. */
  method Run(session: SessionState, cat: string, search: string, files: map<string, string>)
    returns (screen: Screen)
    modifies session
    ensures session.Value() == Initialised(old(session.Value()))
    ensures screen == Render(PLANTAS, session.Value(), cat, search, files)
  {
    session.InitDefaults();
    screen := Render(PLANTAS, session.Value(), cat, search, files);
  }

  /** A button press: the details button of the card at `idx`, or the back
      button. */
  datatype Action = Click(idx: nat) | Back

  /** The buttons a screen draws: one per card on the home screen (lines
      309-311), the back button on a detail screen only (lines 319-322, inside
      `if plant:`), none on an empty screen. */
  predicate Offers(screen: Screen, a: Action)
    ensures Offers(screen, a) ==> !screen.EmptyScreen?
    ensures Offers(screen, a) && a.Back? ==> screen.DetailScreen?
  {
    match a
    case Click(i) => screen.HomeScreen? && i < |screen.cards|
    case Back => screen.DetailScreen?
  }

  /** The session after a button of `screen` is pressed: `change_view` with
      the card's id (line 310) or with the home view alone (line 321). */
  function Next(screen: Screen, a: Action): (s: SessionValue)
    requires Offers(screen, a)
    ensures Renderable(s)
    ensures s.view.Present? && s.selectedPlantId.Present?
    ensures a.Back? <==> s.view == Present(HOME)
    ensures a.Click? ==> s.view == Present(DETAIL) && s.selectedPlantId.value.Some?
    ensures a.Back? ==> s.selectedPlantId == Present(None)
  {
    match a
    case Click(i) => SessionValue(Present(DETAIL), Present(Some(screen.cards[i].plant.id)))
    case Back => SessionValue(Present(HOME), Present(None))
  }

  /** The details button of card `idx` of the home screen (lines 309-310).
      `screen` is meant to be the one `Run` returned in the same run, so its
      cards are those of catalogue records (`PressLeadsToReachable`). */
  method ClickCard(session: SessionState, screen: Screen, idx: nat)
    requires Offers(screen, Click(idx))
    modifies session
    ensures session.Value() == Next(screen, Click(idx))
    ensures session.Value() == SessionValue(Present(DETAIL), Present(Some(screen.cards[idx].plant.id)))
  {
    session.ChangeView(DETAIL, Some(screen.cards[idx].plant.id));
  }

  /** The back button of the detail screen (lines 320-321); `screen` is the
      one `Run` returned in the same run. */
  method GoBack(session: SessionState, screen: Screen)
    requires Offers(screen, Back)
    modifies session
    ensures session.Value() == Next(screen, Back)
    ensures session.Value() == SessionValue(Present(HOME), Present(None))
  {
    session.ChangeView(HOME);
  }

  /** The states a session can be in between runs: the home view with no
      selection, or the detail view of a record of the catalogue. */
  ghost predicate Reachable(table: seq<Planta>, s: SessionValue)
  {
    s == SessionValue(Present(HOME), Present(None)) ||
    exists p :: p in table && s == SessionValue(Present(DETAIL), Present(Some(p.id)))
  }

  /** A new session starts on the home view with nothing selected. */
  lemma FreshSessionStartsHome(table: seq<Planta>)
    ensures Initialised(SessionValue(Absent, Absent)) == SessionValue(Present(HOME), Present(None))
    ensures Reachable(table, Initialised(SessionValue(Absent, Absent)))
  {
  }

  /** In a reachable state the defaults change nothing. */
  lemma ReachableIsInitialised(table: seq<Planta>, s: SessionValue)
    requires Reachable(table, s)
    ensures Initialised(s) == s && Renderable(s)
  {
  }

  /** Whatever screen a run shows, every button it offers leads to a
      reachable state: the cards are those of catalogue records. */
  lemma PressLeadsToReachable(table: seq<Planta>, s: SessionValue, cat: string, search: string,
                              files: map<string, string>, a: Action)
    requires Renderable(s) && Offers(Render(table, s, cat, search, files), a)
    ensures Reachable(table, Next(Render(table, s, cat, search, files), a))
  {
    var screen := Render(table, s, cat, search, files);
    if a.Click? {
      var p := screen.cards[a.idx].plant;
      assert p in table && Next(screen, a) == SessionValue(Present(DETAIL), Present(Some(p.id)));
    }
  }

  /** The detail view of any catalogue record is reachable and shows that
      record with its own image file and its evidence notice. */
  lemma DetailOfRecord(table: seq<Planta>, p: Planta, cat: string, search: string, files: map<string, string>)
    requires DistinctIds(table) && p in table
    ensures var s := SessionValue(Present(DETAIL), Present(Some(p.id)));
      Reachable(table, s) &&
      Render(table, s, cat, search, files) == DetailScreen(p, LoadImage(files, ImagePath(p.id)), EvidenceAlert(p.nivelEvidencia))
  {
    FindByIdOfMember(table, p);
  }

  /** Clicking a card of the home screen leads to a run that shows that
      card's record in detail, whatever the selectors then hold. */
  lemma ClickShowsDetail(table: seq<Planta>, s: SessionValue, cat: string, search: string,
                         files: map<string, string>, idx: nat, cat': string, search': string)
    requires DistinctIds(table) && Renderable(s)
    requires Offers(Render(table, s, cat, search, files), Click(idx))
    ensures var p := Render(table, s, cat, search, files).cards[idx].plant;
      Render(table, Next(Render(table, s, cat, search, files), Click(idx)), cat', search', files)
        == DetailScreen(p, LoadImage(files, ImagePath(p.id)), EvidenceAlert(p.nivelEvidencia))
  {
    var p := Render(table, s, cat, search, files).cards[idx].plant;
    DetailOfRecord(table, p, cat', search', files);
  }

  /** The back button leads to a run that shows the gallery of the selector
      values then current. */
  lemma BackShowsGallery(table: seq<Planta>, s: SessionValue, cat: string, search: string,
                         files: map<string, string>, cat': string, search': string)
    requires Renderable(s) && Offers(Render(table, s, cat, search, files), Back)
    ensures Render(table, Next(Render(table, s, cat, search, files), Back), cat', search', files)
      == HomeScreen(Layout(GalleryFilter(table, cat', search'), files))
  {
  }

  /** A reachable state never renders an empty screen: a detail view always
      finds the record it was opened for and offers the back button. */
  lemma ReachableShowsSomething(table: seq<Planta>, s: SessionValue, cat: string, search: string, files: map<string, string>)
    requires DistinctIds(table) && Reachable(table, s)
    ensures Renderable(s) && !Render(table, s, cat, search, files).EmptyScreen?
    ensures s.view == Present(DETAIL) ==>
      Offers(Render(table, s, cat, search, files), Back) &&
      s.selectedPlantId == Present(Some(Render(table, s, cat, search, files).plant.id))
  {
    if s != SessionValue(Present(HOME), Present(None)) {
      var p :| p in table && s == SessionValue(Present(DETAIL), Present(Some(p.id)));
      DetailOfRecord(table, p, cat, search, files);
    }
  }

  /** A selected id that no record has (`None` included) leaves the detail
      view empty instead of failing. */
  lemma UnknownIdShowsNothing(table: seq<Planta>, id: Option<string>, cat: string, search: string, files: map<string, string>)
    requires forall p :: p in table ==> id != Some(p.id)
    ensures Render(table, SessionValue(Present(DETAIL), Present(id)), cat, search, files) == EmptyScreen
  {
  }

  /** Such a state is a dead end: its screen offers no button, and the
      defaults of the next run leave it as it is, so every later run shows the
      same empty screen. */
  lemma UnknownIdIsDeadEnd(table: seq<Planta>, id: Option<string>, cat: string, search: string,
                           files: map<string, string>, a: Action)
    requires forall p :: p in table ==> id != Some(p.id)
    ensures var s := SessionValue(Present(DETAIL), Present(id));
      Initialised(s) == s && !Offers(Render(table, s, cat, search, files), a)
  {
    UnknownIdShowsNothing(table, id, cat, search, files);
  }

  /** The page's catalogue has distinct ids, so everything above holds for
      the runs of the page; opening bulbine shows its record with the error
      notice. */
  lemma BulbineDetail(cat: string, search: string, files: map<string, string>)
    ensures var screen := Render(PLANTAS, SessionValue(Present(DETAIL), Present(Some("bulbine"))), cat, search, files);
      screen.DetailScreen? && screen.plant == PLANTAS[13] &&
      screen.plant.nivelEvidencia == "Risco" && screen.evidence.Error?
  {
    PlantasWellFormed();
    PlantasColumns(13);
    FindByIdOfMember(PLANTAS, PLANTAS[13]);
    PlantasEvidence(13);
  }
}
