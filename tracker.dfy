/** The tracker application without its widgets: the ordered list of habit cards, the default
    increment for new cards, and the data file. Every operation that the application follows
    with a save writes the file here. The user's dialog answers and the save time are
    parameters. */
module Tracker {
  import opened Wrappers
  import opened Text
  import opened Card
  import opened Persistence

  /** The default increment the application starts with (10%). */
  const StartIncrement: real := 0.1

  const StarterNames: seq<string> := ["Drink Water", "Exercise", "Read"]

  /** The three starter habits seeded when there is no data file: each at progress 0 with the
      current default increment. */
  function StarterHabits(increment: real): (r: seq<Habit>)
    ensures |r| == 3
    ensures forall i :: 0 <= i < 3 ==> r[i] == Habit(StarterNames[i], 0.0, increment, true)
  {
    seq(|StarterNames|, i requires 0 <= i < |StarterNames| => NewCard(StarterNames[i], 0.0, increment))
  }

  class HabitTracker {
    var progressIncrement: real
    var habitCards: seq<Habit>
    var file: DataFile

    /** Between operations every card in the list has a live widget and a progress in [0, 1]. */
    ghost predicate Valid()
      reads this
    {
      forall i :: 0 <= i < |habitCards| ==> habitCards[i].alive && 0.0 <= habitCards[i].progress <= 1.0
    }

    /** Start-up: default increment 10%, no cards, then load the data file `disk`. */
    constructor (disk: DataFile, resetOnError: bool, now: string)
      ensures Valid()
      ensures disk.Missing? || (disk.Unreadable? && resetOnError) ==>
        progressIncrement == StartIncrement && habitCards == StarterHabits(StartIncrement) &&
        file == Stored(SavedDocument(StartIncrement, habitCards, now))
      ensures disk.Unreadable? && !resetOnError ==>
        progressIncrement == StartIncrement && habitCards == [] && file == Unreadable
      ensures disk.Stored? ==>
        progressIncrement == LoadedIncrement(disk.doc.meta, StartIncrement) &&
        habitCards == DecodeEntries(disk.doc.habits.GetOr([]), progressIncrement) &&
        file == disk
    {
      progressIncrement := StartIncrement;
      habitCards := [];
      file := disk;
      new;
      LoadHabits(resetOnError, now);
    }

    /** `save_habits`: drop the cards whose widget is gone, keeping the order of the rest, and
        write the default increment and one record per remaining card. */
    method Save(now: string)
      modifies this
      ensures progressIncrement == old(progressIncrement)
      ensures habitCards == Live(old(habitCards))
      ensures file == Stored(SavedDocument(progressIncrement, old(habitCards), now))
      ensures (forall i :: 0 <= i < |old(habitCards)| ==> 0.0 <= old(habitCards)[i].progress <= 1.0) ==> Valid()
    {
      var entries: seq<Entry> := [];
      var newCards: seq<Habit> := [];
      var k := 0;
      while k < |habitCards|
        invariant 0 <= k <= |habitCards|
        invariant habitCards == old(habitCards) && progressIncrement == old(progressIncrement)
        invariant newCards == Live(habitCards[..k])
        invariant |entries| == |newCards|
        invariant forall j :: 0 <= j < |entries| ==> entries[j] == ToDict(newCards[j])
      {
        var card := habitCards[k];
        if card.alive {
          entries := entries + [ToDict(card)];
          newCards := newCards + [card];
        }
        assert habitCards[..k + 1] == habitCards[..k] + [card];
        LiveConcat(habitCards[..k], [card]);
        assert Live([card]) == if card.alive then [card] else [];
        k := k + 1;
      }
      assert habitCards[..k] == habitCards;
      assert entries == Entries(newCards);
      LiveSubset(habitCards);
      forall i | 0 <= i < |newCards| ensures newCards[i] in habitCards {
        assert newCards[i] in newCards;
      }
      habitCards := newCards;
      file := Stored(Document(Some(Meta(Some(now), Number(progressIncrement))), Some(entries)));
    }

    /** `set_increment` on the card at `i`: only its increment changes; nothing is saved. */
    method SetIncrement(i: nat, increment: real)
      requires Valid() && i < |habitCards|
      modifies this
      ensures Valid()
      ensures habitCards == old(habitCards)[i := old(habitCards)[i].(increment := increment)]
      ensures progressIncrement == old(progressIncrement) && file == old(file)
    {
      habitCards := habitCards[i := habitCards[i].(increment := increment)];
    }

    /** `add_habit_card`: append one new card, with the default increment when none is given,
        and save when asked to. */
    method AddHabitCard(name: string, progress: real, increment: Option<real>, save: bool, now: string)
      requires Valid()
      modifies this
      ensures Valid()
      ensures progressIncrement == old(progressIncrement)
      ensures habitCards == old(habitCards) + [NewCard(name, progress, increment.GetOr(old(progressIncrement)))]
      ensures file == if save then Stored(SavedDocument(progressIncrement, habitCards, now)) else old(file)
    {
      var inc := if increment.None? then progressIncrement else increment.value;
      var card := NewCard(name, progress, inc);
      habitCards := habitCards + [card];
      SetIncrement(|habitCards| - 1, inc);
      if save {
        LiveAllAlive(habitCards);
        Save(now);
      }
    }

    /** `add_habit_prompt` with the dialog's answer `input`: nothing happens for a cancelled,
        empty or whitespace-only answer; otherwise one card with the stripped name, progress 0
        and the default increment is appended and the list is saved. */
    method AddHabitPrompt(input: Option<string>, now: string)
      requires Valid()
      modifies this
      ensures Valid()
      ensures PromptedName(input).None? ==>
        habitCards == old(habitCards) && progressIncrement == old(progressIncrement) && file == old(file)
      ensures PromptedName(input).Some? ==>
        progressIncrement == old(progressIncrement) &&
        habitCards == old(habitCards) + [Habit(PromptedName(input).value, 0.0, progressIncrement, true)] &&
        file == Stored(SavedDocument(progressIncrement, habitCards, now))
    {
      if input.None? || input.value == [] {
        return;
      }
      var name := Strip(input.value);
      if name == [] {
        return;
      }
      AddHabitCard(name, 0.0, Some(progressIncrement), true, now);
    }

    /** `increase_progress` on the card at `i`, followed by a save. */
    method IncreaseProgress(i: nat, now: string)
      requires Valid() && i < |habitCards|
      modifies this
      ensures Valid()
      ensures habitCards == old(habitCards)[i := Increased(old(habitCards)[i])]
      ensures progressIncrement == old(progressIncrement)
      ensures file == Stored(SavedDocument(progressIncrement, habitCards, now))
    {
      habitCards := habitCards[i := Increased(habitCards[i])];
      LiveAllAlive(habitCards);
      Save(now);
    }

    /** `reset_progress` on the card at `i`, followed by a save. */
    method ResetProgress(i: nat, now: string)
      requires Valid() && i < |habitCards|
      modifies this
      ensures Valid()
      ensures habitCards == old(habitCards)[i := Reset(old(habitCards)[i])]
      ensures progressIncrement == old(progressIncrement)
      ensures file == Stored(SavedDocument(progressIncrement, habitCards, now))
    {
      habitCards := habitCards[i := Reset(habitCards[i])];
      LiveAllAlive(habitCards);
      Save(now);
    }

    /** `edit_name` on the card at `i` with the dialog's answer `input`: a cancelled or empty
        answer changes nothing; any other answer becomes the stripped name and is saved. */
    method EditName(i: nat, input: Option<string>, now: string)
      requires Valid() && i < |habitCards|
      modifies this
      ensures Valid()
      ensures habitCards == old(habitCards)[i := old(habitCards)[i].(name := EditedName(old(habitCards)[i].name, input))]
      ensures progressIncrement == old(progressIncrement)
      ensures file == if input.Some? && input.value != [] then Stored(SavedDocument(progressIncrement, habitCards, now))
                      else old(file)
    {
      if input.Some? && input.value != [] {
        habitCards := habitCards[i := habitCards[i].(name := Strip(input.value))];
        LiveAllAlive(habitCards);
        Save(now);
      }
    }

    /** `delete_self` on the card at `i` with the user's confirmation `confirm`: a confirmed
        delete destroys the card's widget and saves, which drops the card from the list and
        from the file; a declined one changes nothing. */
    method DeleteSelf(i: nat, confirm: bool, now: string)
      requires Valid() && i < |habitCards|
      modifies this
      ensures Valid()
      ensures progressIncrement == old(progressIncrement)
      ensures confirm ==>
        habitCards == old(habitCards)[..i] + old(habitCards)[i + 1..] &&
        file == Stored(SavedDocument(progressIncrement, habitCards, now))
      ensures !confirm ==> habitCards == old(habitCards) && file == old(file)
    {
      if confirm {
        DropDestroyed(habitCards, i);
        LiveAllAlive(habitCards[..i] + habitCards[i + 1..]);
        habitCards := habitCards[i := habitCards[i].(alive := false)];
        Save(now);
      }
    }

    /** `update_increment` with the slider's percentage `value`: the default becomes
        `value / 100`, every card takes that increment with its progress untouched, and the
        list is saved. */
    method UpdateIncrement(value: real, now: string)
      requires Valid()
      modifies this
      ensures Valid()
      ensures progressIncrement == value / 100.0
      ensures |habitCards| == |old(habitCards)|
      ensures forall j :: 0 <= j < |habitCards| ==>
        habitCards[j] == old(habitCards)[j].(increment := value / 100.0)
      ensures file == Stored(SavedDocument(progressIncrement, habitCards, now))
    {
      progressIncrement := value / 100.0;
      var cards := habitCards;
      var k := 0;
      while k < |cards|
        invariant 0 <= k <= |cards| == |habitCards|
        invariant Valid() && progressIncrement == value / 100.0
        invariant forall j :: 0 <= j < k ==> habitCards[j] == cards[j].(increment := progressIncrement)
        invariant forall j :: k <= j < |cards| ==> habitCards[j] == cards[j]
      {
        SetIncrement(k, progressIncrement);
        k := k + 1;
      }
      LiveAllAlive(habitCards);
      Save(now);
    }

    /** `reset_all_habits`: reset every card in list order (each reset saves), then save. */
    method ResetAllHabits(now: string)
      requires Valid()
      modifies this
      ensures Valid()
      ensures progressIncrement == old(progressIncrement)
      ensures |habitCards| == |old(habitCards)|
      ensures forall j :: 0 <= j < |habitCards| ==> habitCards[j] == Reset(old(habitCards)[j])
      ensures file == Stored(SavedDocument(progressIncrement, habitCards, now))
    {
      var cards := habitCards;
      var k := 0;
      while k < |cards|
        invariant 0 <= k <= |cards| == |habitCards|
        invariant Valid() && progressIncrement == old(progressIncrement)
        invariant forall j :: 0 <= j < k ==> habitCards[j] == Reset(cards[j])
        invariant forall j :: k <= j < |cards| ==> habitCards[j] == cards[j]
      {
        ResetProgress(k, now);
        k := k + 1;
      }
      LiveAllAlive(habitCards);
      Save(now);
    }

    /** `on_close`: save before the window goes away. */
    method OnClose(now: string)
      requires Valid()
      modifies this
      ensures Valid()
      ensures habitCards == old(habitCards) && progressIncrement == old(progressIncrement)
      ensures file == Stored(SavedDocument(progressIncrement, habitCards, now))
    {
      LiveAllAlive(habitCards);
      Save(now);
    }

    /** `load_habits`, with `resetOnError` the user's answer when the file cannot be read.
        No file: the three starter habits are appended and saved. An unreadable file: declined,
        nothing changes; accepted, the file is removed and loading starts again. A readable
        document: its increment (when numeric) replaces the default, and its records replace
        the whole list, in order. */
    method LoadHabits(resetOnError: bool, now: string)
      requires Valid()
      modifies this
      decreases if file.Unreadable? then 1 else 0
      ensures Valid()
      ensures old(file).Missing? || (old(file).Unreadable? && resetOnError) ==>
        progressIncrement == old(progressIncrement) &&
        habitCards == old(habitCards) + StarterHabits(old(progressIncrement)) &&
        file == Stored(SavedDocument(progressIncrement, habitCards, now))
      ensures old(file).Unreadable? && !resetOnError ==>
        progressIncrement == old(progressIncrement) && habitCards == old(habitCards) && file == old(file)
      ensures old(file).Stored? ==>
        progressIncrement == LoadedIncrement(old(file).doc.meta, old(progressIncrement)) &&
        habitCards == DecodeEntries(old(file).doc.habits.GetOr([]), progressIncrement) &&
        file == old(file)
    {
      match file
      case Missing =>
        var k := 0;
        while k < |StarterNames|
          invariant 0 <= k <= |StarterNames|
          invariant Valid() && progressIncrement == old(progressIncrement) && file == old(file)
          invariant habitCards == old(habitCards) + StarterHabits(progressIncrement)[..k]
        {
          AddHabitCard(StarterNames[k], 0.0, Some(progressIncrement), false, now);
          assert StarterHabits(progressIncrement)[..k + 1] ==
            StarterHabits(progressIncrement)[..k] + [NewCard(StarterNames[k], 0.0, progressIncrement)];
          k := k + 1;
        }
        assert StarterHabits(progressIncrement)[..k] == StarterHabits(progressIncrement);
        LiveAllAlive(habitCards);
        Save(now);
      case Unreadable =>
        if resetOnError {
          file := Missing;
          LoadHabits(resetOnError, now);
        }
      case Stored(doc) =>
        match doc.meta.GetOr(Meta(None, Absent)).progressIncrement {
          case Number(v) => progressIncrement := v;
          case Boolean(b) => progressIncrement := if b then 1.0 else 0.0;
          case _ =>
        }
        // Destroying the old cards' widgets leaves nothing behind once the list is cleared.
        habitCards := [];
        var entries := doc.habits.GetOr([]);
        var k := 0;
        while k < |entries|
          invariant 0 <= k <= |entries|
          invariant Valid() && file == old(file)
          invariant progressIncrement == LoadedIncrement(doc.meta, old(progressIncrement))
          invariant habitCards == DecodeEntries(entries[..k], progressIncrement)
        {
          var entry := entries[k];
          var name := entry.name.GetOr("Untitled");
          var progress := entry.progress.GetOr(0.0);
          var increment := entry.increment.GetOr(progressIncrement);
          if progress < 0.0 {
            progress := 0.0;
          }
          if progress > 1.0 {
            progress := 1.0;
          }
          AddHabitCard(name, progress, Some(increment), false, now);
          assert entries[..k + 1] == entries[..k] + [entry];
          k := k + 1;
        }
        assert entries[..k] == entries;
    }
  }

  /** Closing the application and starting it again on the file it wrote brings back the same
      default increment and the same cards, in the same order. */
  method CloseAndRestart(app: HabitTracker, now: string, later: string, resetOnError: bool)
    returns (restarted: HabitTracker)
    requires app.Valid()
    modifies app
    ensures restarted.progressIncrement == old(app.progressIncrement)
    ensures restarted.habitCards == old(app.habitCards)
  {
    app.OnClose(now);
    SaveLoadRoundTrip(app.progressIncrement, app.habitCards, now, StartIncrement);
    LiveAllAlive(app.habitCards);
    restarted := new HabitTracker(app.file, resetOnError, later);
  }
}
