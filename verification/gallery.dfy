/** The gallery of the home view: the two-stage filter driven by the category
    selector and the search box (the cards it becomes are in module Cards). */
module Gallery {
  import opened Text
  import opened Catalog

  /** The category option that turns the category stage off. */
  const TODAS := "Todas"

  /** Python's list comprehension `[p for p in ps if keep(p)]`. */
  function Filter(ps: seq<Planta>, keep: Planta -> bool): (r: seq<Planta>)
    ensures |r| <= |ps|
    ensures forall p :: p in r <==> p in ps && keep(p)
  {
    if ps == [] then [] else (if keep(ps[0]) then [ps[0]] else []) + Filter(ps[1..], keep)
  }

  /** `xs` is `ys` with some records dropped: same order, nothing repeated,
      nothing added. */
  ghost predicate IsSubsequence(xs: seq<Planta>, ys: seq<Planta>)
    decreases |ys|
  {
    xs == [] ||
    (ys != [] &&
     ((xs[0] == ys[0] && IsSubsequence(xs[1..], ys[1..])) || IsSubsequence(xs, ys[1..])))
  }

  lemma {:induction false} FilterIsSubsequence(ps: seq<Planta>, keep: Planta -> bool)
    ensures IsSubsequence(Filter(ps, keep), ps)
  {
    if ps != [] {
      var rest := Filter(ps[1..], keep);
      FilterIsSubsequence(ps[1..], keep);
      if keep(ps[0]) {
        assert Filter(ps, keep) == [ps[0]] + rest;
        assert ([ps[0]] + rest)[1..] == rest;
      } else {
        assert Filter(ps, keep) == rest;
      }
    }
  }

  /** A subsequence repeats no record more often than the original has it. */
  lemma {:induction false} SubsequenceMultiset(xs: seq<Planta>, ys: seq<Planta>)
    requires IsSubsequence(xs, ys)
    ensures multiset(xs) <= multiset(ys)
    decreases |ys|
  {
    if xs == [] {
    } else if xs[0] == ys[0] && IsSubsequence(xs[1..], ys[1..]) {
      SubsequenceMultiset(xs[1..], ys[1..]);
      assert xs == [xs[0]] + xs[1..];
      assert ys == [ys[0]] + ys[1..];
    } else {
      SubsequenceMultiset(xs, ys[1..]);
      assert ys == [ys[0]] + ys[1..];
    }
  }

  /** Dropping records keeps ids distinct. */
  lemma {:induction false} SubsequenceDistinctIds(xs: seq<Planta>, ys: seq<Planta>)
    requires IsSubsequence(xs, ys) && DistinctIds(ys)
    ensures DistinctIds(xs)
    decreases |ys|
  {
    if xs == [] {
    } else if xs[0] == ys[0] && IsSubsequence(xs[1..], ys[1..]) {
      SubsequenceDistinctIds(xs[1..], ys[1..]);
      SubsequenceMultiset(xs[1..], ys[1..]);
      forall i, j | 0 <= i < j < |xs| ensures xs[i].id != xs[j].id {
        if i == 0 {
          assert xs[j] in multiset(xs[1..]);
          var k :| 0 <= k < |ys[1..]| && ys[1..][k] == xs[j];
          assert ys[k + 1] == xs[j];
        } else {
          assert xs[i] == xs[1..][i - 1] && xs[j] == xs[1..][j - 1];
        }
      }
    } else {
      SubsequenceDistinctIds(xs, ys[1..]);
    }
  }

  /** Filtering with two predicates that agree on `ps` gives the same result. */
  lemma {:induction false} FilterAgree(ps: seq<Planta>, f: Planta -> bool, g: Planta -> bool)
    requires forall p :: p in ps ==> f(p) == g(p)
    ensures Filter(ps, f) == Filter(ps, g)
  {
    if ps != [] {
      FilterAgree(ps[1..], f, g);
    }
  }

  /** A filter that keeps every record of `ps` returns `ps` itself. */
  lemma {:induction false} FilterKeepsAll(ps: seq<Planta>, keep: Planta -> bool)
    requires forall p :: p in ps ==> keep(p)
    ensures Filter(ps, keep) == ps
  {
    if ps != [] {
      FilterKeepsAll(ps[1..], keep);
    }
  }

  /** Two filters in a row are one filter by the conjunction. */
  lemma {:induction false} FilterFuse(ps: seq<Planta>, f: Planta -> bool, g: Planta -> bool)
    ensures Filter(Filter(ps, f), g) == Filter(ps, p => f(p) && g(p))
  {
    if ps != [] {
      FilterFuse(ps[1..], f, g);
      var rest := Filter(ps[1..], f);
      if f(ps[0]) {
        assert Filter(ps, f) == [ps[0]] + rest;
        assert ([ps[0]] + rest)[1..] == rest;
      } else {
        assert Filter(ps, f) == rest;
      }
    }
  }

  /** The order of two filters does not matter. */
  lemma FilterCommutes(ps: seq<Planta>, f: Planta -> bool, g: Planta -> bool)
    ensures Filter(Filter(ps, f), g) == Filter(Filter(ps, g), f)
  {
    FilterFuse(ps, f, g);
    FilterFuse(ps, g, f);
    FilterAgree(ps, p => f(p) && g(p), p => g(p) && f(p));
  }

  /** The category stage (line 275): with the option "Todas" every record
      passes, otherwise the records whose category contains the option as a
      case-sensitive substring. */
  function CategoryStage(ps: seq<Planta>, cat: string): (r: seq<Planta>)
    ensures cat == TODAS ==> r == ps
    ensures cat != TODAS ==> forall p :: p in r <==> p in ps && Contains(p.categoria, cat)
  {
    if cat != TODAS then Filter(ps, (p: Planta) => Contains(p.categoria, cat)) else ps
  }

  /** The search test of line 276: the lowered search text occurs in the
      lowered name or in the lowered description. */
  predicate MatchesSearch(p: Planta, search: string)
    ensures search == "" ==> MatchesSearch(p, search)
    ensures MatchesSearch(p, search) ==> |search| <= |p.nome| || |search| <= |p.descricao|
  {
    Contains(Lower(p.nome), Lower(search)) || Contains(Lower(p.descricao), Lower(search))
  }

  /** The search stage (line 276): an empty search text keeps every record,
      any other keeps the records that match it. */
  function SearchStage(ps: seq<Planta>, search: string): (r: seq<Planta>)
    ensures search == "" ==> r == ps
    ensures search != "" ==> forall p :: p in r <==> p in ps && MatchesSearch(p, search)
  {
    if search != "" then Filter(ps, p => MatchesSearch(p, search)) else ps
  }

  /** Whether a record belongs in the gallery for the given selector values. */
  predicate Shown(p: Planta, cat: string, search: string)
    ensures cat == TODAS && search == "" ==> Shown(p, cat, search)
    ensures Shown(p, cat, search) ==> cat == TODAS || |cat| <= |p.categoria|
    ensures Shown(p, cat, search) && search != "" ==> |search| <= |p.nome| || |search| <= |p.descricao|
  {
    (cat == TODAS || Contains(p.categoria, cat)) && (search == "" || MatchesSearch(p, search))
  }

  /** The records the gallery shows (lines 274-276): the category stage, then
      the search stage. */
  function GalleryFilter(ps: seq<Planta>, cat: string, search: string): (r: seq<Planta>)
    ensures forall p :: p in r <==> p in ps && Shown(p, cat, search)
    ensures cat == TODAS && search == "" ==> r == ps
  {
    SearchStage(CategoryStage(ps, cat), search)
  }

  /** The two stages together are one order-preserving filter by `Shown`. */
  lemma GalleryFilterIsOneFilter(ps: seq<Planta>, cat: string, search: string)
    ensures GalleryFilter(ps, cat, search) == Filter(ps, p => Shown(p, cat, search))
  {
    var inCat := (p: Planta) => Contains(p.categoria, cat);
    var matches := (p: Planta) => MatchesSearch(p, search);
    if cat != TODAS && search != "" {
      FilterFuse(ps, inCat, matches);
      FilterAgree(ps, p => inCat(p) && matches(p), p => Shown(p, cat, search));
    } else if cat != TODAS {
      FilterAgree(ps, inCat, p => Shown(p, cat, search));
    } else if search != "" {
      FilterAgree(ps, matches, p => Shown(p, cat, search));
    } else {
      FilterKeepsAll(ps, p => Shown(p, cat, search));
    }
  }

  /** The gallery never reorders, repeats or invents records, and keeps the
      ids of its records distinct when the catalogue's are. */
  lemma GalleryFilterIsSubsequence(ps: seq<Planta>, cat: string, search: string)
    ensures IsSubsequence(GalleryFilter(ps, cat, search), ps)
    ensures multiset(GalleryFilter(ps, cat, search)) <= multiset(ps)
    ensures DistinctIds(ps) ==> DistinctIds(GalleryFilter(ps, cat, search))
  {
    GalleryFilterIsOneFilter(ps, cat, search);
    FilterIsSubsequence(ps, p => Shown(p, cat, search));
    SubsequenceMultiset(GalleryFilter(ps, cat, search), ps);
    if DistinctIds(ps) {
      SubsequenceDistinctIds(GalleryFilter(ps, cat, search), ps);
    }
  }

  /** Searching first and filtering by category second gives the same gallery. */
  lemma StagesCommute(ps: seq<Planta>, cat: string, search: string)
    ensures SearchStage(CategoryStage(ps, cat), search) == CategoryStage(SearchStage(ps, search), cat)
  {
    if cat != TODAS && search != "" {
      FilterCommutes(ps, (p: Planta) => Contains(p.categoria, cat), p => MatchesSearch(p, search));
    }
  }

  /** The search ignores case: the lowered search text selects the same records. */
  lemma SearchIgnoresCase(ps: seq<Planta>, cat: string, search: string)
    ensures GalleryFilter(ps, cat, Lower(search)) == GalleryFilter(ps, cat, search)
  {
    if search != "" {
      LowerIdempotent(search);
      var qs := CategoryStage(ps, cat);
      FilterAgree(qs, p => MatchesSearch(p, Lower(search)), p => MatchesSearch(p, search));
    }
  }

  /** Every record whose name or description contains the search text exactly
      as typed is found, whatever its case. */
  lemma SearchFindsExactMatches(ps: seq<Planta>, cat: string, search: string, p: Planta)
    requires p in CategoryStage(ps, cat)
    requires Contains(p.nome, search) || Contains(p.descricao, search)
    ensures p in GalleryFilter(ps, cat, search)
  {
    if Contains(p.nome, search) {
      ContainsLowered(p.nome, search);
    } else {
      ContainsLowered(p.descricao, search);
    }
  }

  /** A search text with a character that no lowered name or description has
      empties the gallery. */
  lemma SearchForUnseenCharacter(ps: seq<Planta>, cat: string, search: string, c: char)
    requires c in Lower(search)
    requires forall p :: p in ps ==> c !in Lower(p.nome) && c !in Lower(p.descricao)
    ensures GalleryFilter(ps, cat, search) == []
  {
    var k :| 0 <= k < |Lower(search)| && Lower(search)[k] == c;
    assert search != "";
    forall p | p in ps
      ensures !MatchesSearch(p, search)
    {
      if Contains(Lower(p.nome), Lower(search)) {
        ContainsChar(Lower(p.nome), Lower(search), k);
      }
      if Contains(Lower(p.descricao), Lower(search)) {
        ContainsChar(Lower(p.descricao), Lower(search), k);
      }
    }
    var keep := (p: Planta) => Shown(p, cat, search);
    GalleryFilterIsOneFilter(ps, cat, search);
    FilterSkip(ps, keep, 0, |ps|);
    assert ps[0..] == ps;
  }

  /** A category that lacks the 'H' or the 'l' of "Hormonal" does not contain it. */
  lemma NotHormonal(c: string)
    requires 'H' !in c || 'l' !in c
    ensures !Contains(c, "Hormonal")
  {
    if Contains(c, "Hormonal") {
      ContainsChar(c, "Hormonal", 0);
      ContainsChar(c, "Hormonal", 7);
    }
  }

  /** A category that starts with "Hormonal" contains it. */
  lemma StartsHormonal(c: string)
    requires |c| >= 8 && c[..8] == "Hormonal"
    ensures Contains(c, "Hormonal")
  {
  }

  /** Of the table's categories, exactly those of tribulus, long jack and
      bulbine contain "Hormonal". */
  lemma HormonalCategories(k: int)
    requires 0 <= k < |CATEGORIAS|
    ensures Contains(CATEGORIAS[k], "Hormonal") <==> k == 0 || k == 4 || k == 13
  {
    var c := CATEGORIAS[k];
    if k == 0 || k == 4 || k == 13 {
      assert |c| >= 8 && c[..8] == "Hormonal";
      StartsHormonal(c);
    } else {
      assert 'H' !in c || 'l' !in c;
      NotHormonal(c);
    }
  }

  /** The records of the table whose category contains "Hormonal". */
  lemma HormonalRecords(ps: seq<Planta>, k: int)
    requires ps == PLANTAS && 0 <= k < |ps|
    ensures Contains(ps[k].categoria, "Hormonal") <==> k == 0 || k == 4 || k == 13
  {
    PlantasColumns(k);
    HormonalCategories(k);
  }

  /** A kept record followed by a stretch of dropped ones: the filter from the
      kept record on is that record followed by what the filter keeps after
      the stretch. */
  lemma FilterKeepsOne(ps: seq<Planta>, keep: Planta -> bool, k: int, hi: int, tail: seq<Planta>)
    requires 0 <= k < hi <= |ps| && keep(ps[k])
    requires forall j :: k < j < hi ==> !keep(ps[j])
    requires Filter(ps[hi..], keep) == tail
    ensures Filter(ps[k..], keep) == [ps[k]] + tail
  {
    FilterSkip(ps, keep, k + 1, hi);
    FilterStep(ps, keep, k);
  }

  /** A filter that keeps exactly the records at two positions of a suffix
      gives those two records, in order. */
  lemma FilterKeepsTwo(ps: seq<Planta>, keep: Planta -> bool, b: int, c: int)
    requires 0 <= b < c < |ps|
    requires forall k :: b <= k < |ps| ==> (keep(ps[k]) <==> k == b || k == c)
    ensures Filter(ps[b..], keep) == [ps[b], ps[c]]
  {
    assert ps[|ps|..] == [];
    FilterKeepsOne(ps, keep, c, |ps|, []);
    FilterKeepsOne(ps, keep, b, c, [ps[c]]);
  }

  /** A filter that keeps exactly the records at three positions gives those
      three records, in order. */
  lemma FilterKeepsThree(ps: seq<Planta>, keep: Planta -> bool, a: int, b: int, c: int)
    requires 0 <= a < b < c < |ps|
    requires forall k :: 0 <= k < |ps| ==> (keep(ps[k]) <==> k == a || k == b || k == c)
    ensures Filter(ps, keep) == [ps[a], ps[b], ps[c]]
  {
    assert Filter(ps[a..], keep) == [ps[a], ps[b], ps[c]] by {
      FilterKeepsTwo(ps, keep, b, c);
      FilterKeepsOne(ps, keep, a, b, [ps[b], ps[c]]);
    }
    FilterSkip(ps, keep, 0, a);
    assert ps[0..] == ps;
  }

  /** The category "Hormonal" shows tribulus, long jack and bulbine (whose
      category is "Hormonal (Exp)"), in table order, and nothing else; in
      particular no "Próstata" record. */
  lemma HormonalGallery(ps: seq<Planta>)
    requires ps == PLANTAS
    ensures GalleryFilter(ps, "Hormonal", "") == [ps[0], ps[4], ps[13]]
  {
    var inCat := (p: Planta) => Contains(p.categoria, "Hormonal");
    forall k | 0 <= k < |ps|
      ensures inCat(ps[k]) <==> k == 0 || k == 4 || k == 13
    {
      HormonalRecords(ps, k);
    }
    FilterKeepsThree(ps, inCat, 0, 4, 13);
  }

  /** The second record of the table is named "Maca ...". */
  lemma MacaName(ps: seq<Planta>)
    requires ps == PLANTAS
    ensures |ps| > 1 && |ps[1].nome| >= 4 && ps[1].nome[..4] == "Maca"
  {
    PlantasColumns(1);
  }

  /** A record named "Maca ..." is found by the search "maca", in any category
      that keeps it. */
  lemma FindsMaca(ps: seq<Planta>, k: int)
    requires 0 <= k < |ps| && |ps[k].nome| >= 4 && ps[k].nome[..4] == "Maca"
    ensures ps[k] in GalleryFilter(ps, TODAS, "maca")
  {
    SearchFindsExactMatches(ps, TODAS, "Maca", ps[k]);
    SearchIgnoresCase(ps, TODAS, "Maca");
    assert Lower("Maca") == "maca";
  }

  /** Searching "maca" in lower case finds "Maca Peruana" (the record with id
      "maca"), through the case-insensitive match. */
  lemma MacaSearch(ps: seq<Planta>)
    requires ps == PLANTAS
    ensures ps[1] in GalleryFilter(ps, TODAS, "maca")
  {
    MacaName(ps);
    FindsMaca(ps, 1);
  }

  /** One step of a filter over a suffix of `ps`. */
  lemma FilterStep(ps: seq<Planta>, keep: Planta -> bool, k: int)
    requires 0 <= k < |ps|
    ensures Filter(ps[k..], keep) == (if keep(ps[k]) then [ps[k]] else []) + Filter(ps[k + 1..], keep)
  {
    assert ps[k..][1..] == ps[k + 1..];
  }

  /** A stretch of records the filter drops contributes nothing. */
  lemma {:induction false} FilterSkip(ps: seq<Planta>, keep: Planta -> bool, lo: int, hi: int)
    requires 0 <= lo <= hi <= |ps|
    requires forall k :: lo <= k < hi ==> !keep(ps[k])
    ensures Filter(ps[lo..], keep) == Filter(ps[hi..], keep)
    decreases hi - lo
  {
    if lo < hi {
      FilterStep(ps, keep, lo);
      FilterSkip(ps, keep, lo + 1, hi);
    }
  }
}
