/**
 * The non-visual logic of src/App.tsx: the evidence shown for the current
 * selection, the favourites list (membership test, toggle, trash button)
 * and the search box of the substance picker.
 *
 * The favourites list is the one piece of state the page updates in place;
 * it is the class `FavoriteList`.  Everything else is a pure function of
 * the selection, the list or the query.
 */
module App {
  import opened DrugData

  datatype Option<T> = None | Some(value: T)

  // ---------------------------------------------------------------------
  // Array.prototype.filter
  // ---------------------------------------------------------------------

  /** The elements of `s` that `keep` accepts, in their original order. */
  function Filter<T>(s: seq<T>, keep: T -> bool): (r: seq<T>)
    ensures |r| <= |s|
    ensures forall x | x in r :: x in s && keep(x)
    ensures forall x | x in s && keep(x) :: x in r
  {
    if s == [] then []
    else if keep(s[0]) then [s[0]] + Filter(s[1..], keep)
    else Filter(s[1..], keep)
  }

  /** Filtering a concatenation filters each part in place: the kept
      elements stay in the order they had. */
  lemma {:induction false} FilterAppend<T>(a: seq<T>, b: seq<T>, keep: T -> bool)
    ensures Filter(a + b, keep) == Filter(a, keep) + Filter(b, keep)
  {
    if a == [] {
      assert a + b == b;
    } else {
      var c := a + b;
      assert c[0] == a[0] && c[1..] == a[1..] + b;
      FilterAppend(a[1..], b, keep);
      if keep(a[0]) {
        calc {
          Filter(c, keep);
          [a[0]] + Filter(a[1..] + b, keep);
          [a[0]] + (Filter(a[1..], keep) + Filter(b, keep));
          ([a[0]] + Filter(a[1..], keep)) + Filter(b, keep);
        }
      }
    }
  }

  /** A filter that keeps every element returns the sequence unchanged. */
  lemma {:induction false} FilterKeepsAll<T>(s: seq<T>, keep: T -> bool)
    requires forall x | x in s :: keep(x)
    ensures Filter(s, keep) == s
  {
    if s != [] {
      FilterKeepsAll(s[1..], keep);
    }
  }

  /** Two tests that agree on every element filter alike. */
  lemma {:induction false} FilterSameTest<T>(s: seq<T>, keep1: T -> bool, keep2: T -> bool)
    requires forall x | x in s :: keep1(x) == keep2(x)
    ensures Filter(s, keep1) == Filter(s, keep2)
  {
    if s != [] {
      FilterSameTest(s[1..], keep1, keep2);
    }
  }

  // ---------------------------------------------------------------------
  // The evidence for the current selection
  // ---------------------------------------------------------------------

  /** `interactionEvidence`: null until both pickers hold an id. */
  function SelectedEvidence(drug1: string, drug2: string): (e: Option<InteractionEvidence>)
    ensures e.Some? <==> drug1 != "" && drug2 != ""
    ensures e.Some? ==> e.value.code in Legend && (e.value.code == "SELF" <==> drug1 == drug2)
  {
    if drug1 == "" || drug2 == "" then None else Some(GetInteractionEvidence(drug1, drug2))
  }

  /** `interactionCode`: the evidence's code, null when there is no evidence
      (or when the code is the empty string, which `||` also treats as
      missing). */
  function InteractionCode(drug1: string, drug2: string): (c: Option<string>)
    ensures c.Some? <==> drug1 != "" && drug2 != ""
    ensures c.Some? ==> c.value in Legend && (c.value == "SELF" <==> drug1 == drug2)
  {
    match SelectedEvidence(drug1, drug2)
    case None => None
    case Some(e) => if e.code == "" then None else Some(e.code)
  }

  /** `interaction`: the legend entry of the code, null when there is no
      code or the legend lacks it. */
  function SelectedInteraction(drug1: string, drug2: string): (m: Option<InteractionMetadata>)
    ensures m.Some? <==> drug1 != "" && drug2 != ""
    ensures m.Some? ==> (m.value.riskScale == -1 <==> drug1 == drug2) && -1 <= m.value.riskScale <= 5
  {
    match InteractionCode(drug1, drug2)
    case None => None
    case Some(c) =>
      CodeRank(c);
      if c in Legend then Some(Legend[c]) else None
  }

  // ---------------------------------------------------------------------
  // Favourites
  // ---------------------------------------------------------------------

  /** One saved pair: its favourite id, the two ids as selected, and the
      code it had when saved. */
  datatype Favorite = Favorite(id: string, d1: string, d2: string, code: string)

  /** The character the favourite id puts between the two ids. */
  const FavoriteSeparator: char := '-'

  /** `[drug1, drug2].sort().join('-')`: the favourite id of a pair. */
  function FavoriteId(drug1: string, drug2: string): (id: string)
    ensures exists lo, hi :: multiset{lo, hi} == multiset{drug1, drug2} && !LexLess(hi, lo)
                             && id == lo + [FavoriteSeparator] + hi
  {
    CanonicalKey(drug1, drug2, FavoriteSeparator)
  }

  lemma FavoriteIdSymmetric(drug1: string, drug2: string)
    ensures FavoriteId(drug1, drug2) == FavoriteId(drug2, drug1)
  {
    CanonicalKeySymmetric(drug1, drug2, FavoriteSeparator);
  }

  /** For identifiers, such as the catalogue ids, a favourite id names one
      pair: two pairs with the same favourite id are the same two ids. */
  lemma FavoriteIdIdentifiesPair(a: string, b: string, c: string, d: string)
    requires IsIdentifier(a) && IsIdentifier(b) && IsIdentifier(c) && IsIdentifier(d)
    requires FavoriteId(a, b) == FavoriteId(c, d)
    ensures multiset{a, b} == multiset{c, d}
  {
    IdentifierHasNoSeparator(a);
    IdentifierHasNoSeparator(b);
    IdentifierHasNoSeparator(c);
    IdentifierHasNoSeparator(d);
    CanonicalKeyInjective(a, b, c, d, FavoriteSeparator);
  }

  /** `favorites.some(f => f.id === id)`. */
  function SomeHasId(favorites: seq<Favorite>, id: string): (b: bool)
    ensures b <==> exists i :: 0 <= i < |favorites| && favorites[i].id == id
  {
    if favorites == [] then false
    else if favorites[0].id == id then true
    else
      var b := SomeHasId(favorites[1..], id);
      assert forall i :: 0 < i < |favorites| ==> favorites[i] == favorites[1..][i - 1];
      b
  }

  /** `isFavorited`: both pickers hold an id and some entry carries the
      pair's favourite id. */
  function IsFavorited(favorites: seq<Favorite>, drug1: string, drug2: string): (b: bool)
    ensures b ==> drug1 != "" && drug2 != ""
    ensures b <==> drug1 != "" && drug2 != "" && exists f :: f in favorites && f.id == FavoriteId(drug1, drug2)
  {
    drug1 != "" && drug2 != "" && SomeHasId(favorites, FavoriteId(drug1, drug2))
  }

  lemma IsFavoritedSymmetric(favorites: seq<Favorite>, drug1: string, drug2: string)
    ensures IsFavorited(favorites, drug1, drug2) == IsFavorited(favorites, drug2, drug1)
  {
    FavoriteIdSymmetric(drug1, drug2);
  }

  /** `favorites.filter(f => f.id !== id)`: what the trash button and the
      un-favourite branch of the toggle keep. */
  function WithoutId(favorites: seq<Favorite>, id: string): (r: seq<Favorite>)
    ensures forall f :: f in r <==> f in favorites && f.id != id
  {
    Filter(favorites, (f: Favorite) => f.id != id)
  }

  /** Removal is order-preserving: removing from a concatenation removes
      from each part. */
  lemma WithoutIdAppend(a: seq<Favorite>, b: seq<Favorite>, id: string)
    ensures WithoutId(a + b, id) == WithoutId(a, id) + WithoutId(b, id)
  {
    FilterAppend(a, b, (f: Favorite) => f.id != id);
  }

  /** Removing an id no entry carries changes nothing. */
  lemma WithoutAbsentId(favorites: seq<Favorite>, id: string)
    requires !SomeHasId(favorites, id)
    ensures WithoutId(favorites, id) == favorites
  {
    FilterKeepsAll(favorites, (f: Favorite) => f.id != id);
  }

  /** No two entries share a favourite id. */
  ghost predicate UniqueIds(favorites: seq<Favorite>)
  {
    forall i, j | 0 <= i < j < |favorites| :: favorites[i].id != favorites[j].id
  }

  /** Dropping the head of a list with unique ids leaves unique ids, none
      of them the head's. */
  lemma UniqueTail(favorites: seq<Favorite>)
    requires favorites != [] && UniqueIds(favorites)
    ensures UniqueIds(favorites[1..])
    ensures forall f | f in favorites[1..] :: f.id != favorites[0].id
  {
    var rest := favorites[1..];
    forall i, j | 0 <= i < j < |rest| ensures rest[i].id != rest[j].id {
      assert rest[i] == favorites[i + 1] && rest[j] == favorites[j + 1];
    }
    forall f | f in rest ensures f.id != favorites[0].id {
      var k :| 0 <= k < |rest| && rest[k] == f;
      assert favorites[k + 1] == f;
    }
  }

  /** Putting an entry in front of a list with unique ids, none of them the
      entry's, leaves unique ids. */
  lemma UniqueCons(f: Favorite, rest: seq<Favorite>)
    requires UniqueIds(rest)
    requires forall g | g in rest :: g.id != f.id
    ensures UniqueIds([f] + rest)
  {
    var r := [f] + rest;
    forall i, j | 0 <= i < j < |r| ensures r[i].id != r[j].id {
      assert r[j] == rest[j - 1];
      if i > 0 {
        assert r[i] == rest[i - 1];
      } else {
        assert r[j] in rest;
      }
    }
  }

  lemma {:induction false} WithoutIdKeepsUnique(favorites: seq<Favorite>, id: string)
    requires UniqueIds(favorites)
    ensures UniqueIds(WithoutId(favorites, id))
  {
    if favorites != [] {
      var rest := favorites[1..];
      UniqueTail(favorites);
      WithoutIdKeepsUnique(rest, id);
      var tail := WithoutId(rest, id);
      assert WithoutId(favorites, id) == if favorites[0].id != id then [favorites[0]] + tail else tail;
      if favorites[0].id != id {
        UniqueCons(favorites[0], tail);
      }
    }
  }

  /** The guard of `toggleFavorite`: both ids selected and a code that is
      not SELF. */
  predicate CanToggle(drug1: string, drug2: string)
  {
    var code := InteractionCode(drug1, drug2);
    drug1 != "" && drug2 != "" && code.Some? && code.value != "SELF"
  }

  /** The guard holds exactly for two selected, different ids. */
  lemma CanToggleIff(drug1: string, drug2: string)
    ensures CanToggle(drug1, drug2) <==> drug1 != "" && drug2 != "" && drug1 != drug2
  {
  }

  /** The entry `toggleFavorite` appends for the selected pair. */
  function NewFavorite(drug1: string, drug2: string): (f: Favorite)
    requires CanToggle(drug1, drug2)
    ensures f.id == FavoriteId(drug1, drug2) && f.d1 == drug1 && f.d2 == drug2
    ensures f.code == GetInteractionEvidence(drug1, drug2).code
    ensures f.code in Legend && f.code != "SELF"
  {
    Favorite(FavoriteId(drug1, drug2), drug1, drug2, InteractionCode(drug1, drug2).value)
  }

  /** The list `toggleFavorite` leaves behind: unchanged when the guard
      fails; without every entry of the pair when it was a favourite; with
      exactly one new entry at the end otherwise. */
  function Toggled(favorites: seq<Favorite>, drug1: string, drug2: string): (r: seq<Favorite>)
    ensures !CanToggle(drug1, drug2) ==> r == favorites
    ensures CanToggle(drug1, drug2) && IsFavorited(favorites, drug1, drug2) ==>
      r == WithoutId(favorites, FavoriteId(drug1, drug2)) &&
      forall f :: f in r <==> f in favorites && f.id != FavoriteId(drug1, drug2)
    ensures CanToggle(drug1, drug2) && !IsFavorited(favorites, drug1, drug2) ==>
      |r| == |favorites| + 1 && r[..|favorites|] == favorites && r[|favorites|] == NewFavorite(drug1, drug2)
  {
    if !CanToggle(drug1, drug2) then favorites
    else if IsFavorited(favorites, drug1, drug2) then WithoutId(favorites, FavoriteId(drug1, drug2))
    else favorites + [NewFavorite(drug1, drug2)]
  }

  /** A toggle that passes the guard flips whether the pair is a favourite. */
  lemma ToggleFlips(favorites: seq<Favorite>, drug1: string, drug2: string)
    requires CanToggle(drug1, drug2)
    ensures IsFavorited(Toggled(favorites, drug1, drug2), drug1, drug2) == !IsFavorited(favorites, drug1, drug2)
  {
    var r := Toggled(favorites, drug1, drug2);
    if !IsFavorited(favorites, drug1, drug2) {
      assert r[|favorites|] in r;
    }
  }

  /** Adding a pair and toggling it again restores the list. */
  lemma ToggleRoundTrip(favorites: seq<Favorite>, drug1: string, drug2: string)
    requires !IsFavorited(favorites, drug1, drug2)
    ensures Toggled(Toggled(favorites, drug1, drug2), drug1, drug2) == favorites
  {
    if CanToggle(drug1, drug2) {
      var id := FavoriteId(drug1, drug2);
      var e := NewFavorite(drug1, drug2);
      var added := Toggled(favorites, drug1, drug2);
      assert added == favorites + [e];
      assert e in added;
      WithoutIdAppend(favorites, [e], id);
      WithoutAbsentId(favorites, id);
      assert WithoutId([e], id) == [];
    }
  }

  /** A toggle never creates two entries with the same favourite id. */
  lemma ToggleKeepsUnique(favorites: seq<Favorite>, drug1: string, drug2: string)
    requires UniqueIds(favorites)
    ensures UniqueIds(Toggled(favorites, drug1, drug2))
  {
    if CanToggle(drug1, drug2) {
      if IsFavorited(favorites, drug1, drug2) {
        WithoutIdKeepsUnique(favorites, FavoriteId(drug1, drug2));
      } else {
        var r := Toggled(favorites, drug1, drug2);
        forall i, j | 0 <= i < j < |r| ensures r[i].id != r[j].id {
          if j == |favorites| {
            assert r[i] == favorites[i];
          } else {
            assert r[i] == favorites[i] && r[j] == favorites[j];
          }
        }
      }
    }
  }

  /** The favourites list of the page. */
  class FavoriteList {
    var entries: seq<Favorite>

    constructor ()
      ensures entries == []
    {
      entries := [];
    }

    /** `toggleFavorite` for the pair currently in the pickers. */
    method Toggle(drug1: string, drug2: string)
      modifies this
      ensures entries == Toggled(old(entries), drug1, drug2)
      ensures UniqueIds(old(entries)) ==> UniqueIds(entries)
      ensures CanToggle(drug1, drug2) ==> IsFavorited(entries, drug1, drug2) == !IsFavorited(old(entries), drug1, drug2)
    {
      if CanToggle(drug1, drug2) {
        ToggleFlips(entries, drug1, drug2);
      }
      if UniqueIds(entries) {
        ToggleKeepsUnique(entries, drug1, drug2);
      }
      var code := InteractionCode(drug1, drug2);
      if drug1 == "" || drug2 == "" || code.None? || code.value == "SELF" {
        return;
      }
      var id := FavoriteId(drug1, drug2);
      if IsFavorited(entries, drug1, drug2) {
        entries := WithoutId(entries, id);
      } else {
        entries := entries + [Favorite(id, drug1, drug2, code.value)];
      }
    }

    /** The trash button of an entry: drop every entry with its id. */
    method Remove(id: string)
      modifies this
      ensures entries == WithoutId(old(entries), id)
      ensures forall f :: f in entries <==> f in old(entries) && f.id != id
      ensures UniqueIds(old(entries)) ==> UniqueIds(entries)
    {
      if UniqueIds(entries) {
        WithoutIdKeepsUnique(entries, id);
      }
      entries := WithoutId(entries, id);
    }
  }

  // ---------------------------------------------------------------------
  // Search
  // ---------------------------------------------------------------------

  /** `toLowerCase` on one character, for ASCII letters. */
  function LowerChar(c: char): char
  {
    if 'A' <= c <= 'Z' then (c as int + 32) as char else c
  }

  /** `toLowerCase` on a string: ASCII capitals become small letters and
      every other character stays. */
  function ToLower(s: string): (r: string)
    ensures |r| == |s|
    ensures forall i | 0 <= i < |s| :: !('A' <= r[i] <= 'Z')
    ensures forall i | 0 <= i < |s| :: !('A' <= s[i] <= 'Z') ==> r[i] == s[i]
    ensures forall i | 0 <= i < |s| :: 'A' <= s[i] <= 'Z' ==> r[i] as int == s[i] as int + 32
  {
    seq(|s|, i requires 0 <= i < |s| => LowerChar(s[i]))
  }

  /** Lower-casing twice is lower-casing once. */
  lemma ToLowerIdempotent(s: string)
    ensures ToLower(ToLower(s)) == ToLower(s)
  {
  }

  /** `t` occurs in `s` starting at index `i`. */
  predicate OccursAt(s: string, t: string, i: int)
  {
    0 <= i <= |s| - |t| && s[i..i + |t|] == t
  }

  /** `s.includes(t)`: `t` occurs in `s` at some position. */
  function Includes(s: string, t: string): (b: bool)
    ensures b <==> exists i :: OccursAt(s, t, i)
  {
    if |t| > |s| then false
    else if s[..|t|] == t then assert OccursAt(s, t, 0); true
    else
      var b := Includes(s[1..], t);
      assert forall j :: OccursAt(s[1..], t, j) ==> OccursAt(s, t, j + 1);
      assert (exists i :: OccursAt(s, t, i)) ==> exists j :: OccursAt(s[1..], t, j) by {
        if exists i :: OccursAt(s, t, i) {
          var i :| OccursAt(s, t, i);
          assert OccursAt(s[1..], t, i - 1);
        }
      }
      b
  }

  /** The search test of one entry: the lower-cased query occurs in the
      lower-cased name or the lower-cased class. */
  predicate MatchesSearch(drug: Drug, search: string)
  {
    var q := ToLower(search);
    Includes(ToLower(drug.name), q) || Includes(ToLower(drug.drugClass), q)
  }

  /** `filteredDrugs` over a given catalogue. */
  function SearchFilter(drugs: seq<Drug>, search: string): (r: seq<Drug>)
    ensures forall d :: d in r <==> d in drugs && MatchesSearch(d, search)
  {
    Filter(drugs, (d: Drug) => MatchesSearch(d, search))
  }

  /** An empty query lists the whole catalogue, in order. */
  lemma EmptySearchKeepsAll(drugs: seq<Drug>)
    ensures SearchFilter(drugs, "") == drugs
  {
    forall d | d in drugs ensures MatchesSearch(d, "") {
      assert ToLower("") == "";
      assert ToLower(d.name)[0..0] == "";
    }
    FilterKeepsAll(drugs, (d: Drug) => MatchesSearch(d, ""));
  }

  /** The search ignores the case of the query. */
  lemma SearchIgnoresQueryCase(drugs: seq<Drug>, search: string)
    ensures SearchFilter(drugs, ToLower(search)) == SearchFilter(drugs, search)
  {
    ToLowerIdempotent(search);
    FilterSameTest(drugs, (d: Drug) => MatchesSearch(d, ToLower(search)), (d: Drug) => MatchesSearch(d, search));
  }

  /** The search keeps catalogue order: searching a concatenation searches
      each part. */
  lemma SearchFilterAppend(a: seq<Drug>, b: seq<Drug>, search: string)
    ensures SearchFilter(a + b, search) == SearchFilter(a, search) + SearchFilter(b, search)
  {
    FilterAppend(a, b, (d: Drug) => MatchesSearch(d, search));
  }

  /** `filteredDrugs`: the search box applied to the catalogue. */
  function FilteredDrugs(search: string): (r: seq<Drug>)
    ensures forall d :: d in r <==> d in Drugs && MatchesSearch(d, search)
    ensures search == "" ==> r == Drugs
  {
    EmptySearchKeepsAll(Drugs);
    SearchFilter(Drugs, search)
  }
}
