/** The problem tags: the enum values the server uses, the labels shown
    on screen, and the two lookup tables between them. */
module Tags {
  import opened Text
  import Lists

  /** The problem-tag enumeration, in declaration order. */
  datatype ProblemTag =
    | Implementation | Math | Greedy | TwoPointers | Strings
    | Sorting | DataStructures | GraphTheory | Dp | BruteForce
    | BinarySearch | Trees | DfsAndSimilar | Bfs | Combinatorics
    | Geometry | Hashing | Dsu | Heaps

  const AllTags: seq<ProblemTag> := [Implementation, Math, Greedy, TwoPointers, Strings, Sorting, DataStructures, GraphTheory, Dp, BruteForce, BinarySearch, Trees, DfsAndSimilar, Bfs, Combinatorics, Geometry, Hashing, Dsu, Heaps]

  /** The enum's string value, as the server sends it. */
  function EnumValue(t: ProblemTag): string {
    match t
    case Implementation => "IMPLEMENTATION"
    case Math => "MATH"
    case Greedy => "GREEDY"
    case TwoPointers => "TWO_POINTERS"
    case Strings => "STRINGS"
    case Sorting => "SORTING"
    case DataStructures => "DATA_STRUCTURES"
    case GraphTheory => "GRAPH_THEORY"
    case Dp => "DP"
    case BruteForce => "BRUTE_FORCE"
    case BinarySearch => "BINARY_SEARCH"
    case Trees => "TREES"
    case DfsAndSimilar => "DFS_AND_SIMILAR"
    case Bfs => "BFS"
    case Combinatorics => "COMBINATORICS"
    case Geometry => "GEOMETRY"
    case Hashing => "HASHING"
    case Dsu => "DSU"
    case Heaps => "HEAPS"
  }

  /** `EnumToFrontendTagMap[t]`. */
  function Label(t: ProblemTag): string {
    match t
    case Implementation => "Implementation"
    case Math => "Math"
    case Greedy => "Greedy"
    case TwoPointers => "Two pointers"
    case Strings => "Strings"
    case Sorting => "Sorting"
    case DataStructures => "Data structures"
    case GraphTheory => "Graph theory"
    case Dp => "Dp"
    case BruteForce => "Brute force"
    case BinarySearch => "Binary search"
    case Trees => "Trees"
    case DfsAndSimilar => "Dfs and similar"
    case Bfs => "Bfs"
    case Combinatorics => "Combinatorics"
    case Geometry => "Geometry"
    case Hashing => "Hashing"
    case Dsu => "Dsu"
    case Heaps => "Heaps"
  }

  /** `FrontendToEnumTagMap[name]`; `None` when the name has no entry. */
  function TagOfLabel(name: string): Option<ProblemTag> {
    if name == "Implementation" then Some(Implementation)
    else if name == "Math" then Some(Math)
    else if name == "Greedy" then Some(Greedy)
    else if name == "Two pointers" then Some(TwoPointers)
    else if name == "Strings" then Some(Strings)
    else if name == "Sorting" then Some(Sorting)
    else if name == "Data structures" then Some(DataStructures)
    else if name == "Graph theory" then Some(GraphTheory)
    else if name == "Dp" then Some(Dp)
    else if name == "Brute force" then Some(BruteForce)
    else if name == "Binary search" then Some(BinarySearch)
    else if name == "Trees" then Some(Trees)
    else if name == "Dfs and similar" then Some(DfsAndSimilar)
    else if name == "Bfs" then Some(Bfs)
    else if name == "Combinatorics" then Some(Combinatorics)
    else if name == "Geometry" then Some(Geometry)
    else if name == "Hashing" then Some(Hashing)
    else if name == "Dsu" then Some(Dsu)
    else if name == "Heaps" then Some(Heaps)
    else None
  }

  /** The enum value a server string denotes, if any. */
  function TagOfValue(value: string): Option<ProblemTag> {
    if value == "IMPLEMENTATION" then Some(Implementation)
    else if value == "MATH" then Some(Math)
    else if value == "GREEDY" then Some(Greedy)
    else if value == "TWO_POINTERS" then Some(TwoPointers)
    else if value == "STRINGS" then Some(Strings)
    else if value == "SORTING" then Some(Sorting)
    else if value == "DATA_STRUCTURES" then Some(DataStructures)
    else if value == "GRAPH_THEORY" then Some(GraphTheory)
    else if value == "DP" then Some(Dp)
    else if value == "BRUTE_FORCE" then Some(BruteForce)
    else if value == "BINARY_SEARCH" then Some(BinarySearch)
    else if value == "TREES" then Some(Trees)
    else if value == "DFS_AND_SIMILAR" then Some(DfsAndSimilar)
    else if value == "BFS" then Some(Bfs)
    else if value == "COMBINATORICS" then Some(Combinatorics)
    else if value == "GEOMETRY" then Some(Geometry)
    else if value == "HASHING" then Some(Hashing)
    else if value == "DSU" then Some(Dsu)
    else if value == "HEAPS" then Some(Heaps)
    else None
  }
  /** The two tables are mutually inverse: every tag's name leads back to
      the tag, and every name with an entry is that tag's name. */
  lemma TablesInverse(t: ProblemTag, name: string)
    ensures TagOfLabel(Label(t)) == Some(t)
    ensures TagOfLabel(name).Some? ==> Label(TagOfLabel(name).value) == name
  {
    LabelLeadsBack(t);
    LabelFound(name);
  }

  lemma LabelLeadsBack(t: ProblemTag)
    ensures TagOfLabel(Label(t)) == Some(t)
  {
  }

  lemma LabelFound(name: string)
    ensures TagOfLabel(name).Some? ==> Label(TagOfLabel(name).value) == name
  {
  }

  lemma ValueRoundTrip(t: ProblemTag, value: string)
    ensures TagOfValue(EnumValue(t)) == Some(t)
    ensures TagOfValue(value).Some? ==> EnumValue(TagOfValue(value).value) == value
  {
    ValueLeadsBack(t);
    ValueFound(value);
  }

  lemma ValueLeadsBack(t: ProblemTag)
    ensures TagOfValue(EnumValue(t)) == Some(t)
  {
  }

  lemma ValueFound(value: string)
    ensures TagOfValue(value).Some? ==> EnumValue(TagOfValue(value).value) == value
  {
  }

  lemma AllTagsListsEveryTag(t: ProblemTag)
    ensures t in AllTags
  {
    var i := match t
      case Implementation => 0
      case Math => 1
      case Greedy => 2
      case TwoPointers => 3
      case Strings => 4
      case Sorting => 5
      case DataStructures => 6
      case GraphTheory => 7
      case Dp => 8
      case BruteForce => 9
      case BinarySearch => 10
      case Trees => 11
      case DfsAndSimilar => 12
      case Bfs => 13
      case Combinatorics => 14
      case Geometry => 15
      case Hashing => 16
      case Dsu => 17
      case Heaps => 18
    ;
    assert AllTags[i] == t;
  }

  /** `TagsFrontendValues`: one name per tag, in enum order. */
  function TagsFrontendValues(): (r: seq<string>)
    ensures |r| == |AllTags| && forall i :: 0 <= i < |AllTags| ==> r[i] == Label(AllTags[i])
  {
    Labels(AllTags)
  }

  function Labels(ts: seq<ProblemTag>): (r: seq<string>)
    ensures |r| == |ts| && forall i :: 0 <= i < |ts| ==> r[i] == Label(ts[i])
  {
    if ts == [] then [] else [Label(ts[0])] + Labels(ts[1..])
  }

  predicate HasTag(name: string) { TagOfLabel(name).Some? }

  /** `mapFrontendTagsToEnum`: each name through the table, dropping those
      with no entry. */
  function MapFrontendTagsToEnum(selected: seq<string>): (r: seq<ProblemTag>)
    ensures |r| <= |selected|
    decreases |selected|
  {
    if selected == [] then []
    else match TagOfLabel(selected[0])
      case Some(t) => [t] + MapFrontendTagsToEnum(selected[1..])
      case None => MapFrontendTagsToEnum(selected[1..])
  }

  /** The result is the kept labels, in order, each turned into its tag. */
  lemma {:induction false} MapKeepsLabelsWithEntries(selected: seq<string>)
    ensures Labels(MapFrontendTagsToEnum(selected)) == Lists.Filter(selected, HasTag)
    decreases |selected|
  {
    if selected != [] {
      MapKeepsLabelsWithEntries(selected[1..]);
      TablesInverse(Implementation, selected[0]);
    }
  }

  /** Showing tags as labels and mapping them back gives the tags again. */
  lemma {:induction false} LabelsRoundTrip(ts: seq<ProblemTag>)
    ensures MapFrontendTagsToEnum(Labels(ts)) == ts
    decreases |ts|
  {
    if ts != [] {
      TablesInverse(ts[0], Label(ts[0]));
      assert Labels(ts)[1..] == Labels(ts[1..]);
      LabelsRoundTrip(ts[1..]);
    }
  }

  /** `EnumToFrontendTagMap[tag] ?? tag` for a tag string from the server. */
  function DisplayTag(value: string): (r: string)
    ensures TagOfValue(value).Some? ==> r == Label(TagOfValue(value).value)
    ensures TagOfValue(value).None? ==> r == value
  {
    match TagOfValue(value)
    case Some(t) => Label(t)
    case None => value
  }
}
