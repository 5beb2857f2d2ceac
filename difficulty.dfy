/** Problem difficulty: the allowed range, the colour class of a rating and
    the range picker that keeps typed values inside it. */
module Difficulty {
  import opened Text

  const MinDifficulty: int := 100
  const EasyMax: int := 900
  const MediumMax: int := 1600
  const HardMax: int := 2000

  /** `getDifficultyColor`. */
  function GetDifficultyColor(difficulty: int): (c: string)
    ensures difficulty <= EasyMax <==> c == "text-difficultyEasy"
    ensures EasyMax < difficulty <= MediumMax <==> c == "text-difficultyMedium"
    ensures difficulty > MediumMax <==> c == "text-difficultyHard"
  {
    if difficulty <= EasyMax then "text-difficultyEasy"
    else if difficulty <= MediumMax then "text-difficultyMedium"
    else "text-difficultyHard"
  }

  function Level(c: string): int {
    if c == "text-difficultyEasy" then 0 else if c == "text-difficultyMedium" then 1 else 2
  }

  /** A harder problem never gets an easier colour. */
  lemma ColorMonotone(a: int, b: int)
    requires a <= b
    ensures Level(GetDifficultyColor(a)) <= Level(GetDifficultyColor(b))
  {
  }

  /** `clamp` on `Number(text)`: a falsy value (zero or NaN, here `None`)
      becomes the minimum; anything else is pulled into the range. */
  function Clamp(value: Option<int>): (v: int)
    ensures MinDifficulty <= v <= HardMax
    ensures value.Some? && MinDifficulty <= value.value <= HardMax ==> v == value.value
    ensures value.None? || value.value == 0 ==> v == MinDifficulty
    ensures value.Some? && value.value > HardMax ==> v == HardMax
  {
    if value.None? || value.value == 0 then MinDifficulty
    else
      var v := value.value;
      var v := if v < MinDifficulty then MinDifficulty else v;
      if v > HardMax then HardMax else v
  }

  /** Clamping twice is clamping once. */
  lemma ClampIdempotent(value: Option<int>)
    ensures Clamp(Some(Clamp(value))) == Clamp(value)
  {
  }

  /** What one input of the picker reports: typing reports the raw number;
      leaving the field, or Enter, reports the clamped one; any other key
      reports nothing. */
  datatype InputEvent = Change | Blur | KeyDown(key: string)

  function Reported(event: InputEvent, text: string): (r: Option<Option<int>>)
    ensures event.Change? ==> r == Some(ToNumber(text))
    ensures event.Blur? || event == KeyDown("Enter") ==>
      r.Some? && r.value.Some? && MinDifficulty <= r.value.value <= HardMax && r.value.value == Clamp(ToNumber(text))
    ensures event.KeyDown? && event.key != "Enter" ==> r.None?
  {
    match event
    case Change => Some(ToNumber(text))
    case Blur => Some(Some(Clamp(ToNumber(text))))
    case KeyDown(key) => if key == "Enter" then Some(Some(Clamp(ToNumber(text)))) else None
  }

  /** Typing a number in range and leaving the field keeps it as typed. */
  lemma InRangeCommitsUnchanged(n: nat)
    requires MinDifficulty <= n <= HardMax
    ensures Reported(Blur, NatToString(n)) == Some(Some(n))
  {
    ToNumberOfNatToString(n);
  }
}
