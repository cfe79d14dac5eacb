/** Step two of signup: picking between one and five genres from a fixed grid of twelve. */
module GenreSelection {
  import opened Options
  import opened Seqs

  /** The ids of the twelve genres of the grid, in grid order. */
  const Genres: seq<string> := [
    "rock", "pop", "hip-hop", "jazz", "classical", "electronic",
    "country", "r&b", "reggae", "metal", "folk", "blues"
  ]

  const MaxGenres: nat := 5
  const NoGenreError := "Please select at least one genre"
  const TooManyGenresError := "Please select no more than 5 genres"

  /** `filter(id => id !== g)`: every occurrence of `g` removed, the rest kept in order. */
  function RemoveAll(s: seq<string>, g: string): (r: seq<string>)
    ensures g !in r
    ensures forall x :: x in s && x != g ==> x in r
    ensures forall x :: x in r ==> x in s
    ensures IsSubsequence(r, s)
    decreases |s|
  {
    if s == [] then []
    else if s[0] == g then RemoveAll(s[1..], g)
    else [s[0]] + RemoveAll(s[1..], g)
  }

  /** The selection after tapping genre `g`: a selected genre is deselected, any other is selected.
      Membership of `g` flips and every other genre keeps its membership; a newly selected genre goes
      to the end. */
  function Toggle(s: seq<string>, g: string): (r: seq<string>)
    ensures g in r <==> g !in s
    ensures forall x :: x != g ==> (x in r <==> x in s)
    ensures g !in s ==> r == s + [g]
    ensures g in s ==> IsSubsequence(r, s)
  {
    if g in s then RemoveAll(s, g) else s + [g]
  }

  /** Every selected id is one of the grid's. */
  predicate FromGrid(s: seq<string>) {
    forall x :: x in s ==> x in Genres
  }

  /** Toggling keeps a duplicate-free selection duplicate-free. */
  lemma ToggleKeepsDistinct(s: seq<string>, g: string)
    requires Distinct(s)
    ensures Distinct(Toggle(s, g))
  {
    if g in s {
      SubsequenceDistinct(Toggle(s, g), s);
    } else {
      var r := s + [g];
      forall i, j | 0 <= i < j < |r| ensures r[i] != r[j] {
        if j == |s| {
          assert r[i] in s;
        }
      }
    }
  }

  /** Taps on the grid keep the selection inside the grid. */
  lemma ToggleStaysInGrid(s: seq<string>, g: string)
    requires FromGrid(s) && g in Genres
    ensures FromGrid(Toggle(s, g))
  {
  }

  lemma {:induction false} RemoveAllAppended(s: seq<string>, g: string)
    requires g !in s
    ensures RemoveAll(s + [g], g) == s
    decreases |s|
  {
    if s == [] {
      assert RemoveAll([g], g) == RemoveAll([], g);
    } else {
      assert (s + [g])[1..] == s[1..] + [g];
      RemoveAllAppended(s[1..], g);
    }
  }

  /** Tapping a genre that was not selected twice gives back exactly the selection. */
  lemma ToggleTwiceRestoresAbsent(s: seq<string>, g: string)
    requires g !in s
    ensures Toggle(Toggle(s, g), g) == s
  {
    RemoveAllAppended(s, g);
  }

  /** Tapping any genre twice gives back the same set of selected genres. */
  lemma ToggleTwiceRestoresMembership(s: seq<string>, g: string, x: string)
    ensures x in Toggle(Toggle(s, g), g) <==> x in s
  {
  }

  /** Tapping a selected genre twice need not give back the same list: the genre moves to the end. */
  lemma ToggleTwiceReordersPresent()
    ensures Toggle(Toggle(["rock", "pop"], "rock"), "rock") == ["pop", "rock"]
  {
    assert Toggle(["rock", "pop"], "rock") == ["pop"] by {
      assert RemoveAll(["rock", "pop"], "rock") == RemoveAll(["pop"], "rock");
      assert RemoveAll(["pop"], "rock") == ["pop"] + RemoveAll([], "rock");
    }
  }

  datatype ContinueOutcome = Proceed(genres: seq<string>) | Rejected(message: string)

  /** Continue: an empty selection and one of more than five genres are refused with their messages;
      one to five genres go on unchanged. */
  function ContinueCheck(selected: seq<string>): (o: ContinueOutcome)
    ensures o.Proceed? <==> 1 <= |selected| <= MaxGenres
    ensures o.Proceed? ==> o.genres == selected
    ensures |selected| == 0 ==> o == Rejected(NoGenreError)
    ensures |selected| > MaxGenres ==> o == Rejected(TooManyGenresError)
  {
    if |selected| == 0 then Rejected(NoGenreError)
    else if |selected| > MaxGenres then Rejected(TooManyGenresError)
    else Proceed(selected)
  }

  /** The genre screen's state. */
  class GenreSelectionScreen {
    var selected: seq<string>
    var error: string

    /** A duplicate-free selection of grid genres. */
    ghost predicate Valid()
      reads this
    {
      Distinct(selected) && FromGrid(selected)
    }

    constructor (initialGenres: seq<string>)
      ensures selected == initialGenres && error == ""
    {
      selected := initialGenres;
      error := "";
    }

    /** A tap on a grid card: toggles the genre and clears any pending error. */
    method ToggleGenre(g: string)
      modifies this
      ensures selected == Toggle(old(selected), g) && error == ""
      ensures old(Valid()) && g in Genres ==> Valid()
    {
      if old(Valid()) && g in Genres {
        ToggleKeepsDistinct(selected, g);
        ToggleStaysInGrid(selected, g);
      }
      selected := Toggle(selected, g);
      if error != "" {
        error := "";
      }
    }

    /** Continue: a refused selection sets the error and stops; an accepted one is handed on as it is
        and nothing changes. */
    method HandleContinue() returns (next: Option<seq<string>>)
      modifies this
      ensures selected == old(selected)
      ensures match ContinueCheck(old(selected))
              case Proceed(gs) => next == Some(gs) && error == old(error)
              case Rejected(m) => next == None && error == m
    {
      match ContinueCheck(selected)
      case Proceed(gs) =>
        next := Some(gs);
      case Rejected(m) =>
        error := m;
        next := None;
    }
  }
}
