/**
  Defaulting of the three numeric inputs of a run (repetitions, frames per
  second, images per row). An input is `None` when the widget's
  `valueAsNumber` is NaN (empty or unparsable field).
 */
module Parameters {
  import opened Wrappers

  const DefaultRepetitions: int := 1
  const DefaultFps: int := 10
  const DefaultRows: int := 1

  /** The value a run uses: the input itself when it is a number of at least 1,
      the default otherwise. */
  function Effective(input: Option<int>, default: int): (r: int)
    requires default >= 1
    ensures r >= 1
    ensures input.Some? && input.value >= 1 ==> r == input.value
    ensures r != default ==> input == Some(r)
  {
    if input.None? || input.value < 1 then default else input.value
  }

  datatype Settings = Settings(repetitions: int, fps: int, rows: int)

  /** The three effective parameters of one run. */
  function Resolve(repetitions: Option<int>, fps: Option<int>, rows: Option<int>): (s: Settings)
    ensures repetitions.None? || repetitions.value < 1 ==> s.repetitions == 1
    ensures repetitions.Some? && repetitions.value >= 1 ==> s.repetitions == repetitions.value
    ensures fps.None? || fps.value < 1 ==> s.fps == 10
    ensures fps.Some? && fps.value >= 1 ==> s.fps == fps.value
    ensures rows.None? || rows.value < 1 ==> s.rows == 1
    ensures rows.Some? && rows.value >= 1 ==> s.rows == rows.value
  {
    Settings(Effective(repetitions, DefaultRepetitions),
             Effective(fps, DefaultFps),
             Effective(rows, DefaultRows))
  }

  /** A missing or out-of-range input yields the default and nothing else. */
  lemma FallsBackExactlyWhenUnusable(input: Option<int>, default: int)
    requires default >= 1
    ensures (input.None? || input.value < 1) ==> Effective(input, default) == default
    ensures input.Some? ==> (input.value >= 1 <==> Effective(input, default) == input.value)
  {
  }

  /** Empty/unparsable, "0" and "-5" fall back to 1, 10 and 1; "3" is kept. */
  lemma FallbackExamples()
    ensures Resolve(None, None, None) == Settings(1, 10, 1)
    ensures Resolve(Some(0), Some(0), Some(0)) == Settings(1, 10, 1)
    ensures Resolve(Some(-5), Some(-5), Some(-5)) == Settings(1, 10, 1)
    ensures Resolve(Some(3), Some(3), Some(3)) == Settings(3, 3, 3)
  {
  }
}
