/**
 * The line-cleaning half of `AssetLoader.loadLabels`: the lines of the
 * label file are trimmed and the empty ones dropped. Reading the asset and
 * splitting it into lines is I/O and is taken as given.
 */
module AssetLoader {
  import opened Text

  /** `map { it.trim() }` */
  function TrimAll(lines: seq<string>): (ts: seq<string>)
    ensures |ts| == |lines|
    ensures forall i :: 0 <= i < |lines| ==> ts[i] == Trim(lines[i])
  {
    seq(|lines|, i requires 0 <= i < |lines| => Trim(lines[i]))
  }

  /** `filter { it.isNotEmpty() }` */
  function DropEmpty(ts: seq<string>): (r: seq<string>)
    ensures |r| <= |ts|
  {
    if ts == [] then []
    else DropEmpty(ts[..|ts| - 1]) + (if ts[|ts| - 1] != [] then [ts[|ts| - 1]] else [])
  }

  /** The positions that `DropEmpty` keeps, in order. */
  function NonEmptyPositions(ts: seq<string>): (k: seq<nat>)
    ensures forall j :: 0 <= j < |k| ==> k[j] < |ts| && ts[k[j]] != []
    ensures forall a, b :: 0 <= a < b < |k| ==> k[a] < k[b]
    ensures forall i :: 0 <= i < |ts| && ts[i] != [] ==> i in k
  {
    if ts == [] then []
    else
      var n := |ts| - 1;
      var front := NonEmptyPositions(ts[..n]);
      assert forall j :: 0 <= j < |front| ==> ts[..n][front[j]] == ts[front[j]];
      front + (if ts[n] != [] then [n] else [])
  }

  /** `DropEmpty` keeps exactly the non-empty entries, in their original order. */
  lemma {:induction false} DropEmptyKeepsOrder(ts: seq<string>)
    ensures |DropEmpty(ts)| == |NonEmptyPositions(ts)|
    ensures forall j :: 0 <= j < |DropEmpty(ts)| ==> DropEmpty(ts)[j] == ts[NonEmptyPositions(ts)[j]]
  {
    if ts != [] {
      var n := |ts| - 1;
      DropEmptyKeepsOrder(ts[..n]);
      var front := NonEmptyPositions(ts[..n]);
      var last := if ts[n] != [] then [ts[n]] else [];
      assert DropEmpty(ts) == DropEmpty(ts[..n]) + last;
      assert NonEmptyPositions(ts) == front + (if ts[n] != [] then [n] else []);
      assert forall j :: 0 <= j < |front| ==> ts[..n][front[j]] == ts[front[j]];
    }
  }

  /** `readLines().map { it.trim() }.filter { it.isNotEmpty() }` */
  function CleanLabels(lines: seq<string>): (labels: seq<string>)
    ensures |labels| <= |lines|
    ensures forall j :: 0 <= j < |labels| ==> labels[j] != []
  {
    DropEmptyKeepsOrder(TrimAll(lines));
    DropEmpty(TrimAll(lines))
  }

  /** The lines whose labels survive, by index into the label file. */
  function KeptLines(lines: seq<string>): seq<nat>
  {
    NonEmptyPositions(TrimAll(lines))
  }

  /**
   * One label per kept line, in file order, each the trimmed line; a line is
   * kept exactly when it is not blank.
   */
  lemma CleanLabelsFollowLines(lines: seq<string>)
    ensures |CleanLabels(lines)| == |KeptLines(lines)|
    ensures forall a, b :: 0 <= a < b < |KeptLines(lines)| ==> KeptLines(lines)[a] < KeptLines(lines)[b]
    ensures forall j :: 0 <= j < |KeptLines(lines)| ==>
      KeptLines(lines)[j] < |lines| && CleanLabels(lines)[j] == Trim(lines[KeptLines(lines)[j]])
    ensures forall i :: 0 <= i < |lines| ==> (i in KeptLines(lines) <==> !IsBlank(lines[i]))
  {
    DropEmptyKeepsOrder(TrimAll(lines));
    forall i | 0 <= i < |lines| ensures i in KeptLines(lines) <==> !IsBlank(lines[i]) {
      TrimEmptyIffBlank(lines[i]);
    }
  }

  /** Every label is non-empty and carries no whitespace at either end. */
  lemma CleanLabelsAreTrimmed(lines: seq<string>, j: nat)
    requires j < |CleanLabels(lines)|
    ensures CleanLabels(lines)[j] != []
    ensures !IsWhitespace(CleanLabels(lines)[j][0])
    ensures !IsWhitespace(CleanLabels(lines)[j][|CleanLabels(lines)[j]| - 1])
  {
    CleanLabelsFollowLines(lines);
    TrimIsMaximalInnerSlice(lines[KeptLines(lines)[j]]);
  }
}
