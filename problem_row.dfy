/** The problem list's row: a problem record from the server turned into
    what a row shows. */
module ProblemRow {
  import Tags

  datatype Status = Solved | Attempted | Unsolved

  datatype ProblemDto = ProblemDto(id: int, title: string, tags: seq<string>, rate: int, submissionsCount: int)

  datatype ProblemRowProps = ProblemRowProps(id: int, name: string, tags: seq<string>, difficulty: int,
                                             solvers: int, status: Status)

  /** `mapProblemDtoToProblemRow`. */
  function MapProblemDtoToProblemRow(problem: ProblemDto): (row: ProblemRowProps)
    ensures row.id == problem.id && row.name == problem.title
    ensures row.difficulty == problem.rate && row.solvers == problem.submissionsCount
    ensures row.status == Unsolved
    ensures |row.tags| == |problem.tags|
    ensures forall i :: 0 <= i < |row.tags| ==> row.tags[i] == Tags.DisplayTag(problem.tags[i])
  {
    ProblemRowProps(problem.id, problem.title, DisplayTags(problem.tags), problem.rate, problem.submissionsCount,
                    Unsolved)
  }

  function DisplayTags(tags: seq<string>): (r: seq<string>)
    ensures |r| == |tags| && forall i :: 0 <= i < |tags| ==> r[i] == Tags.DisplayTag(tags[i])
  {
    if tags == [] then [] else [Tags.DisplayTag(tags[0])] + DisplayTags(tags[1..])
  }

  /** Known tags are shown by their label and map back to the same tag;
      unknown strings are shown as they came. */
  lemma RowTagsReadBack(problem: ProblemDto, i: nat)
    requires i < |problem.tags|
    ensures var shown := MapProblemDtoToProblemRow(problem).tags[i];
      (Tags.TagOfValue(problem.tags[i]).Some? ==> Tags.TagOfLabel(shown) == Tags.TagOfValue(problem.tags[i]))
      && (Tags.TagOfValue(problem.tags[i]).None? ==> shown == problem.tags[i])
  {
    var t := Tags.TagOfValue(problem.tags[i]);
    if t.Some? {
      Tags.TablesInverse(t.value, "");
    }
  }
}
