/** The data file as a value, and the two mappings between it and the tracker's state: what a
    save writes, and what a load rebuilds from a readable document. */
module Persistence {
  import opened Wrappers
  import opened Progress
  import opened Card

  /** `meta.progress_increment` as the loader sees it. JSON booleans are numbers to the loader,
      since a Python `bool` is an `int`. */
  datatype IncrementField = Absent | Number(value: real) | Boolean(flag: bool) | NotNumeric

  /** One record of the `habits` array; each field may be absent. */
  datatype Entry = Entry(name: Option<string>, progress: Option<real>, increment: Option<real>)

  datatype Meta = Meta(savedAt: Option<string>, progressIncrement: IncrementField)

  /** The JSON document: an optional `meta` object and an optional `habits` array. */
  datatype Document = Document(meta: Option<Meta>, habits: Option<seq<Entry>>)

  /** The data file on disk: absent, present but not parseable, or holding a document. */
  datatype DataFile = Missing | Unreadable | Stored(doc: Document)

  /** The cards whose widget still exists, in list order. */
  function Live(cards: seq<Habit>): (r: seq<Habit>)
    ensures |r| <= |cards|
    ensures forall i :: 0 <= i < |r| ==> r[i].alive
  {
    if cards == [] then [] else (if cards[0].alive then [cards[0]] else []) + Live(cards[1..])
  }

  /** Filtering neither invents nor duplicates cards: each live card occurs in the result as
      often as in `cards`, and no other card occurs. */
  lemma {:induction false} LiveCounts(cards: seq<Habit>, h: Habit)
    ensures multiset(Live(cards))[h] == if h.alive then multiset(cards)[h] else 0
  {
    if cards != [] {
      LiveCounts(cards[1..], h);
      assert cards == [cards[0]] + cards[1..];
    }
  }

  /** Filtering keeps each part's live cards in place: the live cards of `a + b` are those of
      `a` followed by those of `b`. */
  lemma {:induction false} LiveConcat(a: seq<Habit>, b: seq<Habit>)
    ensures Live(a + b) == Live(a) + Live(b)
  {
    if a == [] {
      assert a + b == b;
    } else {
      var head := if a[0].alive then [a[0]] else [];
      assert (a + b)[0] == a[0];
      assert (a + b)[1..] == a[1..] + b;
      assert Live(a + b) == head + Live(a[1..] + b);
      LiveConcat(a[1..], b);
      assert Live(a) == head + Live(a[1..]);
    }
  }

  /** Filtering only keeps cards that were there. */
  lemma {:induction false} LiveSubset(cards: seq<Habit>)
    ensures forall h :: h in Live(cards) ==> h in cards
  {
    if cards != [] {
      LiveSubset(cards[1..]);
    }
  }

  /** A list in which every widget exists is its own live part. */
  lemma {:induction false} LiveAllAlive(cards: seq<Habit>)
    requires forall i :: 0 <= i < |cards| ==> cards[i].alive
    ensures Live(cards) == cards
  {
    if cards != [] {
      LiveAllAlive(cards[1..]);
    }
  }

  /** Destroying the widget of card `i` in a list of live cards and then pruning removes
      exactly that card and keeps the others in order. */
  lemma DropDestroyed(cards: seq<Habit>, i: nat)
    requires i < |cards|
    requires forall j :: 0 <= j < |cards| ==> cards[j].alive
    ensures Live(cards[i := cards[i].(alive := false)]) == cards[..i] + cards[i + 1..]
  {
    var before, gone, after := cards[..i], cards[i].(alive := false), cards[i + 1..];
    assert cards[i := gone] == before + [gone] + after;
    LiveConcat(before + [gone], after);
    LiveConcat(before, [gone]);
    assert Live([gone]) == [];
    LiveAllAlive(before);
    LiveAllAlive(after);
  }

  /** A card's `to_dict()`: its name, progress and increment, all present, so that loading
      the record gives back a live card with progress in range unchanged. */
  function ToDict(h: Habit): (e: Entry)
    ensures e.name.Some? && e.progress.Some? && e.increment.Some?
    ensures 0.0 <= h.progress <= 1.0 ==> 0.0 <= e.progress.value <= 1.0
    ensures h.alive && 0.0 <= h.progress <= 1.0 ==>
      forall increment :: DecodeEntry(e, increment) == h
  {
    Entry(Some(h.name), Some(h.progress), Some(h.increment))
  }

  function Entries(cards: seq<Habit>): (r: seq<Entry>)
    ensures |r| == |cards|
    ensures forall i :: 0 <= i < |r| ==> r[i] == ToDict(cards[i])
  {
    seq(|cards|, i requires 0 <= i < |cards| => ToDict(cards[i]))
  }

  /** The document `save_habits` writes: the stamp, the default increment, and one record per
      card whose widget still exists, in list order. */
  function SavedDocument(increment: real, cards: seq<Habit>, now: string): (d: Document)
    ensures d.meta.Some? && d.meta.value.savedAt == Some(now)
    ensures forall current :: LoadedIncrement(d.meta, current) == increment
    ensures d.habits.Some? && |d.habits.value| == |Live(cards)|
    ensures forall i :: 0 <= i < |d.habits.value| ==> d.habits.value[i] == ToDict(Live(cards)[i])
  {
    Document(Some(Meta(Some(now), Number(increment))), Some(Entries(Live(cards))))
  }

  /** The default increment after reading `meta`: a number (or boolean) replaces `current`,
      a missing `meta`, a missing field or any other value keeps it. */
  function LoadedIncrement(meta: Option<Meta>, current: real): (r: real)
    ensures meta.Some? && meta.value.progressIncrement.Number? ==> r == meta.value.progressIncrement.value
    ensures meta.Some? && meta.value.progressIncrement.Boolean? ==>
      r == if meta.value.progressIncrement.flag then 1.0 else 0.0
    ensures meta.None? || meta.value.progressIncrement.Absent? || meta.value.progressIncrement.NotNumeric? ==>
      r == current
  {
    match meta.GetOr(Meta(None, Absent)).progressIncrement
    case Number(v) => v
    case Boolean(b) => if b then 1.0 else 0.0
    case _ => current
  }

  /** The card a loaded record becomes: missing fields default to "Untitled", progress 0 and the
      default increment `increment`, and the progress is clamped into [0, 1]. */
  function DecodeEntry(e: Entry, increment: real): (h: Habit)
    ensures h.alive && 0.0 <= h.progress <= 1.0
    ensures h.name == if e.name.Some? then e.name.value else "Untitled"
    ensures h.increment == if e.increment.Some? then e.increment.value else increment
    ensures e.progress.None? ==> h.progress == 0.0
    ensures e.progress.Some? ==> h.progress == Clamp(e.progress.value)
  {
    NewCard(e.name.GetOr("Untitled"), Clamp(e.progress.GetOr(0.0)), e.increment.GetOr(increment))
  }

  function DecodeEntries(entries: seq<Entry>, increment: real): (r: seq<Habit>)
    ensures |r| == |entries|
    ensures forall i :: 0 <= i < |r| ==> r[i] == DecodeEntry(entries[i], increment)
  {
    seq(|entries|, i requires 0 <= i < |entries| => DecodeEntry(entries[i], increment))
  }

  /** Decoding a record that `to_dict` wrote, whatever the default increment, gives back the
      live card it came from when its progress is in [0, 1]. */
  lemma EntryRoundTrip(h: Habit, increment: real)
    requires h.alive && 0.0 <= h.progress <= 1.0
    ensures DecodeEntry(ToDict(h), increment) == h
  {
  }

  /** Loading what a save wrote restores the default increment and exactly the live cards, in
      order, with their names, progress and increments, whatever default the loader held. */
  lemma SaveLoadRoundTrip(increment: real, cards: seq<Habit>, now: string, current: real)
    requires forall i :: 0 <= i < |cards| ==> 0.0 <= cards[i].progress <= 1.0
    ensures var doc := SavedDocument(increment, cards, now);
      LoadedIncrement(doc.meta, current) == increment &&
      DecodeEntries(doc.habits.GetOr([]), increment) == Live(cards)
  {
  }
}
