/** The onboarding tutorial: swipeable song cards over a queue of demo songs, five slides, and a demo
    driver that swipes the top card by itself on the slides that carry a demo direction. */
module Tutorial {
  import opened Options
  import opened Seqs

  /** One song card's data; only `id` matters to the queue. */
  datatype Song = Song(id: int, title: string, artist: string, album: string,
                       genre: string, duration: string, year: string, coverArt: string)

  /** The fixed batch the queue starts from and is refilled with. */
  const TutorialSongs: seq<Song> := [
    Song(1, "Midnight Dreams", "Luna Rose", "Starlight Sessions", "Pop", "3:24", "2023",
         "https://via.placeholder.com/300x300/8b5cf6/ffffff?text=MD"),
    Song(2, "Electric Waves", "Neon Collective", "Digital Hearts", "Electronic", "4:12", "2023",
         "https://via.placeholder.com/300x300/d41e7f/ffffff?text=EW"),
    Song(3, "Golden Hour", "Sunset Avenue", "Warm Nights", "Indie", "3:45", "2023",
         "https://via.placeholder.com/300x300/f59e0b/ffffff?text=GH")
  ]

  datatype Direction = Left | Right

  /** What of a slide the logic looks at: whether it shows the cards, whether they are frozen demo
      cards, and the direction the demo driver swipes on it. */
  datatype Slide = Slide(showCards: bool, isDemo: bool, demoDirection: Option<Direction>)

  const Slides: seq<Slide> := [
    Slide(false, false, None),        // welcome
    Slide(true, true, None),          // meet your song cards
    Slide(true, false, Some(Right)),  // swipe right to like
    Slide(true, false, Some(Left)),   // swipe left to skip
    Slide(false, false, None)         // all set
  ]

  const LastSlide: nat := |Slides| - 1

  /** No two songs of the queue share an id. */
  predicate UniqueIds(s: seq<Song>) {
    forall i, j :: 0 <= i < j < |s| ==> s[i].id != s[j].id
  }

  // ---------------------------------------------------------------------------------------------
  // Gesture: release decision, rotation, commit animation

  function Abs(x: real): real {
    if x < 0.0 then -x else x
  }

  /** Commit threshold: 30% of the viewport width, so on a real viewport a positive distance short of
      the full width. */
  function SwipeThreshold(width: real): (t: real)
    ensures 10.0 * t == 3.0 * width
    ensures width > 0.0 ==> 0.0 < t < width
  {
    width * 0.3
  }

  datatype ReleaseOutcome = Commit(direction: Direction) | SpringBack

  /** The release-time decision on the horizontal drag `dx`. Beyond the threshold to the right it
      commits right; otherwise, beyond it to the left, it commits left; otherwise the card springs back.
      On a positive width the outcome is a commit exactly when `|dx|` exceeds the threshold, and its
      direction is the sign of `dx`. */
  function ReleaseDecision(dx: real, width: real): (r: ReleaseOutcome)
    ensures r == Commit(Right) <==> dx > SwipeThreshold(width)
    ensures r == Commit(Left) <==> dx < -SwipeThreshold(width) && dx <= SwipeThreshold(width)
    ensures width > 0.0 ==> (r == SpringBack <==> Abs(dx) <= SwipeThreshold(width))
    ensures width > 0.0 && r.Commit? ==> (r.direction == Right <==> dx > 0.0)
  {
    if dx > SwipeThreshold(width) then Commit(Right)
    else if dx < -SwipeThreshold(width) then Commit(Left)
    else SpringBack
  }

  /** A drag of exactly the threshold, either way, does not commit: both comparisons are strict. */
  lemma ThresholdBoundaryCancels(width: real)
    requires width > 0.0
    ensures ReleaseDecision(SwipeThreshold(width), width) == SpringBack
    ensures ReleaseDecision(-SwipeThreshold(width), width) == SpringBack
  {
  }

  /** On a 400-wide viewport (threshold 120) a drag of 50 springs back and one of 150 commits right. */
  lemma ReleaseExamples()
    ensures ReleaseDecision(50.0, 400.0) == SpringBack
    ensures ReleaseDecision(150.0, 400.0) == Commit(Right)
    ensures ReleaseDecision(-150.0, 400.0) == Commit(Left)
  {
  }

  /** Rotation set while dragging: a tenth of a degree per unit of `dx`, turning the way the card is
      dragged; the drawn clamp of 30 degrees is reached exactly at a drag of 300. */
  function DragRotation(dx: real): (r: real)
    ensures r > 0.0 <==> dx > 0.0
    ensures r < 0.0 <==> dx < 0.0
    ensures Abs(r) <= 30.0 <==> Abs(dx) <= 300.0
  {
    dx * 0.1
  }

  /** The rotation the card is drawn with: the rotation value clamped into [-30, 30] degrees. */
  function RenderedRotation(rotation: real): (r: real)
    ensures -30.0 <= r <= 30.0
    ensures -30.0 <= rotation <= 30.0 ==> r == rotation
    ensures rotation >= 30.0 ==> r == 30.0
    ensures rotation <= -30.0 ==> r == -30.0
  {
    if rotation < -30.0 then -30.0 else if rotation > 30.0 then 30.0 else rotation
  }

  /** Dragging further right never tilts the card further left. */
  lemma RenderedRotationMonotone(a: real, b: real)
    requires a <= b
    ensures RenderedRotation(a) <= RenderedRotation(b)
  {
  }

  /** A drag of at most 300 units either way is drawn with its unclamped rotation `dx / 10`. */
  lemma ShortDragRotationUnclamped(dx: real)
    requires -300.0 <= dx <= 300.0
    ensures RenderedRotation(DragRotation(dx)) == dx / 10.0
  {
  }

  /** Where a committed card is animated to: 100 units past the edge of the viewport on its side. */
  function ExitOffset(d: Direction, width: real): (x: real)
    ensures width >= 0.0 && d == Right ==> x > width
    ensures width >= 0.0 && d == Left ==> x < -width
  {
    if d == Right then width + 100.0 else -width - 100.0
  }

  /** The rotation a committed card is animated to. */
  function ExitRotation(d: Direction): (deg: real)
    ensures deg == 30.0 || deg == -30.0
    ensures deg > 0.0 <==> d == Right
  {
    if d == Right then 30.0 else -30.0
  }

  /** The two exits mirror each other. */
  lemma ExitsMirror(width: real)
    ensures ExitOffset(Left, width) == -ExitOffset(Right, width)
    ensures ExitRotation(Left) == -ExitRotation(Right)
  {
  }

  /** The callback a settled commit fires: `onSwipeRight(song)` or `onSwipeLeft(song)`. */
  datatype SwipeEvent = SwipedRight(song: Song) | SwipedLeft(song: Song)

  /** The one callback a commit in direction `d` fires, carrying the card's own song. */
  function CommitCallback(d: Direction, song: Song): (e: SwipeEvent)
    ensures e.song == song
    ensures e.SwipedRight? <==> d == Right
  {
    if d == Right then SwipedRight(song) else SwipedLeft(song)
  }

  /** One song card and its animated drag state. A commit animation is modelled as the single step at
      which it settles. */
  class SongCard {
    const song: Song
    const isDemo: bool
    var panX: real
    var panY: real
    var rotation: real

    constructor (song: Song, isDemo: bool)
      ensures this.song == song && this.isDemo == isDemo
      ensures panX == 0.0 && panY == 0.0 && rotation == 0.0
    {
      this.song := song;
      this.isDemo := isDemo;
      panX, panY, rotation := 0.0, 0.0, 0.0;
    }

    /** The rotation the card is drawn with. */
    function DisplayedRotation(): (deg: real)
      reads this
      ensures -30.0 <= deg <= 30.0
    {
      RenderedRotation(rotation)
    }

    /** A drag step. A demo card never becomes the gesture responder, so it ignores drags; any other
        card follows the finger and tilts by a tenth of `dx`. */
    method Move(dx: real, dy: real) returns (accepted: bool)
      modifies this
      ensures accepted == !isDemo
      ensures accepted ==> panX == dx && panY == dy && rotation == DragRotation(dx)
      ensures !accepted ==> panX == old(panX) && panY == old(panY) && rotation == old(rotation)
    {
      accepted := !isDemo;
      if accepted {
        panX, panY := dx, dy;
        rotation := DragRotation(dx);
      }
    }

    /** The end of a drag, up to the settling of the animation it starts. A commit leaves the card at
        its exit point and fires exactly one callback, for its own song; a spring-back returns it to
        rest and fires none. A demo card never had a gesture to release. */
    method Release(dx: real, width: real) returns (fired: Option<SwipeEvent>)
      modifies this
      ensures isDemo ==> fired == None && panX == old(panX) && panY == old(panY) && rotation == old(rotation)
      ensures !isDemo ==>
        match ReleaseDecision(dx, width)
        case Commit(d) =>
          fired == Some(CommitCallback(d, song)) &&
          panX == ExitOffset(d, width) && panY == 0.0 && rotation == ExitRotation(d)
        case SpringBack =>
          fired == None && panX == 0.0 && panY == 0.0 && rotation == 0.0
    {
      fired := None;
      if !isDemo {
        match ReleaseDecision(dx, width)
        case Commit(d) =>
          panX, panY, rotation := ExitOffset(d, width), 0.0, ExitRotation(d);
          fired := Some(CommitCallback(d, song));
        case SpringBack =>
          panX, panY, rotation := 0.0, 0.0, 0.0;
      }
    }
  }

  // ---------------------------------------------------------------------------------------------
  // The queue

  /** `filter(s => s.id !== id)`: drops every song with the id, keeps the others in their order. */
  function RemoveId(s: seq<Song>, id: int): (r: seq<Song>)
    ensures forall t :: t in r ==> t.id != id
    ensures forall t :: t in s && t.id != id ==> t in r
    ensures IsSubsequence(r, s)
    decreases |s|
  {
    if s == [] then []
    else if s[0].id == id then RemoveId(s[1..], id)
    else [s[0]] + RemoveId(s[1..], id)
  }

  /** With unique ids, removing an id that occurs drops exactly one song. */
  lemma {:induction false} RemoveIdDropsOne(s: seq<Song>, k: nat, id: int)
    requires UniqueIds(s) && k < |s| && s[k].id == id
    ensures |RemoveId(s, id)| == |s| - 1
    decreases |s|
  {
    if k == 0 {
      RemoveAbsentId(s[1..], id);
    } else {
      assert UniqueIds(s[1..]) by {
        forall i, j | 0 <= i < j < |s[1..]| ensures s[1..][i].id != s[1..][j].id {
          assert s[1..][i] == s[i + 1] && s[1..][j] == s[j + 1];
        }
      }
      assert s[0].id != id;
      RemoveIdDropsOne(s[1..], k - 1, id);
    }
  }

  /** Removing an id no song carries changes nothing. */
  lemma {:induction false} RemoveAbsentId(s: seq<Song>, id: int)
    requires forall t :: t in s ==> t.id != id
    ensures RemoveId(s, id) == s
    decreases |s|
  {
    if s != [] {
      RemoveAbsentId(s[1..], id);
    }
  }

  /** Swiping the top card of a queue with unique ids makes the old second card the new top. */
  lemma SwipeTopAdvances(s: seq<Song>)
    requires UniqueIds(s) && |s| > 0
    ensures RemoveId(s, s[0].id) == s[1..]
  {
    forall t | t in s[1..] ensures t.id != s[0].id {
      var j :| 0 <= j < |s[1..]| && s[1..][j] == t;
      assert t == s[j + 1];
    }
    RemoveAbsentId(s[1..], s[0].id);
  }

  /** Every queue made by deleting songs from the batch has unique ids. */
  lemma BatchSubsequenceUniqueIds(a: seq<Song>)
    requires IsSubsequence(a, TutorialSongs)
    ensures UniqueIds(a)
  {
    assert Distinct(TutorialSongs);
    SubsequenceDistinct(a, TutorialSongs);
    SubsequenceElements(a, TutorialSongs);
    forall i, j | 0 <= i < j < |a| ensures a[i].id != a[j].id {
      assert a[i] in TutorialSongs && a[j] in TutorialSongs;
    }
  }

  /** The queue after the demo driver swipes the top card of a non-empty queue: the handler it calls
      sees the same `songs`, so a queue of one is refilled and a longer one advances by one card. */
  function DemoQueue(songs: seq<Song>): (r: seq<Song>)
    requires |songs| > 0
    ensures IsSubsequence(songs, TutorialSongs) ==> IsSubsequence(r, TutorialSongs) && |r| > 0
    ensures IsSubsequence(songs, TutorialSongs) && |songs| > 1 ==> r == songs[1..]
  {
    if |songs| <= 1 then
      SubsequenceReflexive(TutorialSongs);
      TutorialSongs
    else
      var r := RemoveId(songs, songs[0].id);
      assert IsSubsequence(songs, TutorialSongs) ==> r == songs[1..] && IsSubsequence(r, TutorialSongs) by {
        if IsSubsequence(songs, TutorialSongs) {
          BatchSubsequenceUniqueIds(songs);
          SwipeTopAdvances(songs);
          SubsequenceTransitive(r, songs, TutorialSongs);
        }
      }
      r
  }

  /** Left to itself on a demo slide, the deck cycles: three demo swipes starting from the full batch
      take songs 1, 2 and 3 off the top and end on the full batch again. */
  lemma DemoCycle()
    ensures DemoQueue(TutorialSongs) == TutorialSongs[1..]
    ensures DemoQueue(TutorialSongs[1..]) == TutorialSongs[2..]
    ensures DemoQueue(TutorialSongs[2..]) == TutorialSongs
  {
    SubsequenceReflexive(TutorialSongs);
    assert IsSubsequence(TutorialSongs[1..], TutorialSongs);
  }

  /** A card as the screen draws it. */
  datatype RenderedCard = RenderedCard(song: Song, isTop: bool, draggable: bool, zIndex: int)

  /** The cards drawn on a slide: none unless the slide shows cards, otherwise the first two songs,
      index 0 being the top card and drawn above the other; they take drags unless the slide is the
      frozen demo slide. */
  function RenderCards(slide: nat, songs: seq<Song>): (r: seq<RenderedCard>)
    requires slide < |Slides|
    ensures !Slides[slide].showCards ==> r == []
    ensures Slides[slide].showCards ==> |r| == if |songs| < 2 then |songs| else 2
    ensures forall i :: 0 <= i < |r| ==>
              r[i].song == songs[i] && (r[i].isTop <==> i == 0) && (r[i].draggable <==> !Slides[slide].isDemo)
    ensures |r| == 2 ==> r[0].zIndex > r[1].zIndex
  {
    if !Slides[slide].showCards then []
    else
      var n := if |songs| < 2 then |songs| else 2;
      seq(n, i requires 0 <= i < n => RenderedCard(songs[i], i == 0, !Slides[slide].isDemo, |songs| - i))
  }

  // ---------------------------------------------------------------------------------------------
  // The screen

  /** The tutorial screen's state: the current slide and the song queue. */
  class TutorialScreen {
    var currentSlide: nat
    var songs: seq<Song>

    /** The slide index is in range and the queue is the batch with some songs deleted. */
    ghost predicate Valid()
      reads this
    {
      currentSlide <= LastSlide && IsSubsequence(songs, TutorialSongs)
    }

    constructor ()
      ensures Valid() && currentSlide == 0 && songs == TutorialSongs
    {
      currentSlide := 0;
      songs := TutorialSongs;
      SubsequenceReflexive(TutorialSongs);
    }

    /** Next: below the last slide it moves one slide on, resetting the queue when the new slide shows
        cards; on the last slide it only completes the tutorial. */
    method HandleNext() returns (completed: bool)
      requires Valid()
      modifies this
      ensures Valid()
      ensures completed <==> old(currentSlide) == LastSlide
      ensures currentSlide == if completed then old(currentSlide) else old(currentSlide) + 1
      ensures songs == if !completed && Slides[currentSlide].showCards then TutorialSongs else old(songs)
    {
      if currentSlide < LastSlide {
        currentSlide := currentSlide + 1;
        if Slides[currentSlide].showCards {
          songs := TutorialSongs;
          SubsequenceReflexive(TutorialSongs);
        }
        completed := false;
      } else {
        completed := true;
      }
    }

    /** Previous: moves one slide back when not on the first, resetting the queue when the new slide
        shows cards; on the first slide it does nothing. */
    method HandlePrevious()
      requires Valid()
      modifies this
      ensures Valid()
      ensures currentSlide == if old(currentSlide) > 0 then old(currentSlide) - 1 else 0
      ensures songs == if old(currentSlide) > 0 && Slides[currentSlide].showCards then TutorialSongs else old(songs)
    {
      if currentSlide > 0 {
        currentSlide := currentSlide - 1;
        if Slides[currentSlide].showCards {
          songs := TutorialSongs;
          SubsequenceReflexive(TutorialSongs);
        }
      }
    }

    /** `handleSwipeRight` and `handleSwipeLeft`, which are the same: the swiped song's id leaves the
        queue; then, if the `songs` the handler was created with (`seen`) held at most one song, the
        queue is refilled with the full batch. */
    method HandleSwipe(event: SwipeEvent, seen: seq<Song>)
      requires Valid()
      modifies this
      ensures Valid()
      ensures currentSlide == old(currentSlide)
      ensures songs == if |seen| <= 1 then TutorialSongs else RemoveId(old(songs), event.song.id)
    {
      var filtered := RemoveId(songs, event.song.id);
      SubsequenceTransitive(filtered, songs, TutorialSongs);
      songs := filtered;
      if |seen| <= 1 {
        songs := TutorialSongs;
        SubsequenceReflexive(TutorialSongs);
      }
    }

    /** The demo driver's timer firing: on a slide with a demo direction and a non-empty queue it
        commits the top card in that direction, through the same swipe handler; otherwise nothing
        happens. The queue is never left empty by it. */
    method DemoTick() returns (fired: Option<SwipeEvent>)
      requires Valid()
      modifies this
      ensures Valid()
      ensures currentSlide == old(currentSlide)
      ensures Slides[currentSlide].demoDirection.Some? && |old(songs)| > 0 ==>
                fired == Some(CommitCallback(Slides[currentSlide].demoDirection.value, old(songs)[0])) &&
                songs == DemoQueue(old(songs))
      ensures !(Slides[currentSlide].demoDirection.Some? && |old(songs)| > 0) ==>
                fired == None && songs == old(songs)
      ensures fired.Some? ==> |songs| > 0
    {
      fired := None;
      var slide := Slides[currentSlide];
      if slide.demoDirection.Some? && |songs| > 0 {
        var event := CommitCallback(slide.demoDirection.value, songs[0]);
        HandleSwipe(event, songs);
        assert songs == DemoQueue(old(songs));
        fired := Some(event);
      }
    }

    /** Skip: completes the tutorial without touching the state. */
    method HandleSkip() returns (completed: bool)
      ensures completed
    {
      completed := true;
    }
  }
}
