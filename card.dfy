/** One habit card with its widgets stripped away: a name, the progress held by its circular
    indicator, its own increment step, and whether its widget still exists. The functions
    here give the new record after one card operation; the tracker applies them to the card
    in its list. */
module Card {
  import opened Wrappers
  import opened Progress
  import opened Text

  datatype Habit = Habit(name: string, progress: real, increment: real, alive: bool)

  /** A freshly built card: the indicator clamps the starting progress, the widget exists. */
  function NewCard(name: string, progress: real, increment: real): (h: Habit)
    ensures h.name == name && h.increment == increment && h.alive
    ensures 0.0 <= h.progress <= 1.0
    ensures 0.0 <= progress <= 1.0 ==> h.progress == progress
    ensures progress < 0.0 ==> h.progress == 0.0
    ensures 1.0 < progress ==> h.progress == 1.0
  {
    Habit(name, Clamp(progress), increment, true)
  }

  /** The card after its increment button is pressed: only the progress moves, by the card's
      own step, and never beyond full. */
  function Increased(h: Habit): (r: Habit)
    ensures r.name == h.name && r.increment == h.increment && r.alive == h.alive
    ensures 0.0 <= r.progress <= 1.0
    ensures r.progress == 1.0 <==> h.progress + h.increment >= 1.0
    ensures 0.0 <= h.progress + h.increment <= 1.0 ==> r.progress == h.progress + h.increment
    ensures h.progress + h.increment < 0.0 ==> r.progress == 0.0
  {
    h.(progress := Advanced(h.progress, h.increment))
  }

  /** The card after its reset button is pressed: progress exactly 0, nothing else changes. */
  function Reset(h: Habit): (r: Habit)
    ensures r.progress == 0.0
    ensures r.name == h.name && r.increment == h.increment && r.alive == h.alive
  {
    h.(progress := 0.0)
  }

  /** The name after the edit dialog answers `input` (None when cancelled). A cancelled or empty
      answer keeps the name; any other answer is stripped, so an answer made only of whitespace
      leaves an empty name. */
  function EditedName(current: string, input: Option<string>): (r: string)
    ensures input == None || input == Some([]) ==> r == current
    ensures input.Some? && input.value != [] ==> r == Strip(input.value)
    ensures input.Some? && input.value != [] && AllSpace(input.value) ==> r == []
  {
    if input.Some? && input.value != [] then Strip(input.value) else current
  }

  /** The name a new habit gets from the add dialog's answer `input`, or None when nothing is
      added: a cancelled, empty or whitespace-only answer adds nothing; otherwise the stripped
      answer, which is never empty and neither starts nor ends with whitespace. */
  function PromptedName(input: Option<string>): (r: Option<string>)
    ensures r.None? <==> input.None? || AllSpace(input.value)
    ensures r.Some? ==> r.value == Strip(input.value) && r.value != []
    ensures r.Some? ==> !IsSpace(r.value[0]) && !IsSpace(r.value[|r.value| - 1])
  {
    if input.None? || input.value == [] then None
    else
      var name := Strip(input.value);
      if name == [] then None else Some(name)
  }

  const ProgressCaption: string := "\nProgress: "

  /** The card's middle label, `f"{name}\nProgress: {int(progress * 100)}%"`: it reads back as
      the name, the caption, and the whole percentage of a progress in [0, 1]. */
  function LabelText(h: Habit): (r: string)
    ensures |r| >= |h.name| + |ProgressCaption| + 2
    ensures r[..|h.name|] == h.name
    ensures r[|h.name|..|h.name| + |ProgressCaption|] == ProgressCaption
    ensures r[|r| - 1] == '%'
    ensures 0.0 <= h.progress <= 1.0 ==>
      var digits := r[|h.name| + |ProgressCaption|..|r| - 1];
      AllDigits(digits) && DecimalValue(digits) == Percent(h.progress) &&
      1 <= |digits| && (digits[0] == '0' ==> digits == "0")
  {
    var percent := IntToString(Percent(h.progress));
    var r := h.name + ProgressCaption + percent + "%";
    assert r[|h.name| + |ProgressCaption|..|r| - 1] == percent;
    r
  }
}
