/** The source preprocessor of `brichka run`: lines between a
    `// brichka: exclude` marker and the next `// brichka: include` marker are
    not sent to the cluster, and the marker lines themselves never are. */
module Preprocessor {
  import opened Text

  const ExcludeMarker: string := "// brichka: exclude"
  const IncludeMarker: string := "// brichka: include"

  /** A marker line: its trimmed text is exactly one of the two markers. */
  predicate IsMarker(line: string) {
    Trim(line) == ExcludeMarker || Trim(line) == IncludeMarker
  }

  /** The `excluding` flag after scanning `lines`: set by an exclude marker,
      cleared by an include marker, unchanged by any other line. */
  predicate Excluding(lines: seq<string>)
    decreases |lines|
  {
    if lines == [] then false
    else
      var last := lines[|lines| - 1];
      if Trim(last) == ExcludeMarker then true
      else if Trim(last) == IncludeMarker then false
      else Excluding(lines[..|lines| - 1])
  }

  /** Whether the scan keeps the line at position `i`. */
  predicate Retained(lines: seq<string>, i: nat)
    requires i < |lines|
  {
    !IsMarker(lines[i]) && !Excluding(lines[..i])
  }

  /** The lines the scan keeps, in order. */
  function Kept(lines: seq<string>): seq<string>
    decreases |lines|
  {
    if lines == [] then []
    else
      var n := |lines| - 1;
      Kept(lines[..n]) + (if Retained(lines, n) then [lines[n]] else [])
  }

  /** `filter_excluded_sections`: scans the lines with one flag and joins the
      kept lines with line feeds. */
  method FilterExcludedSections(command: string) returns (r: string)
    ensures r == Join(Kept(Lines(command)), "\n")
  {
    var lines := Lines(command);
    var result: seq<string> := [];
    var excluding := false;
    for i := 0 to |lines|
      invariant excluding == Excluding(lines[..i])
      invariant result == Kept(lines[..i])
    {
      var line := lines[i];
      var trimmed := Trim(line);
      ScanStep(lines, i);
      if trimmed == ExcludeMarker {
        excluding := true;
      } else if trimmed == IncludeMarker {
        excluding := false;
      } else if !excluding {
        result := result + [line];
      }
    }
    assert lines[..|lines|] == lines;
    r := Join(result, "\n");
  }

  /** Scanning one more line updates the flag and the kept lines as the loop does. */
  lemma ScanStep(lines: seq<string>, i: nat)
    requires i < |lines|
    ensures Excluding(lines[..i + 1]) == if Trim(lines[i]) == ExcludeMarker then true
                                        else if Trim(lines[i]) == IncludeMarker then false
                                        else Excluding(lines[..i])
    ensures Kept(lines[..i + 1]) == Kept(lines[..i]) + (if Retained(lines, i) then [lines[i]] else [])
  {
    assert lines[..i + 1][..i] == lines[..i];
  }

  // ---------------------------------------------------------------------------
  // The selection rule

  /** The positions of the kept lines, increasing. */
  function KeptPositions(lines: seq<string>): (p: seq<nat>)
    ensures forall k :: 0 <= k < |p| ==> p[k] < |lines|
    ensures forall k, l :: 0 <= k < l < |p| ==> p[k] < p[l]
    decreases |lines|
  {
    if lines == [] then []
    else
      var n := |lines| - 1;
      KeptPositions(lines[..n]) + (if Retained(lines, n) then [n] else [])
  }

  /** A line is kept exactly when it is not a marker and the most recent
      marker before it is not an exclude marker; kept lines are verbatim and
      keep their order. */
  lemma {:induction false} KeptSelection(lines: seq<string>)
    ensures |Kept(lines)| == |KeptPositions(lines)|
    ensures forall k :: 0 <= k < |Kept(lines)| ==> Kept(lines)[k] == lines[KeptPositions(lines)[k]]
    ensures forall i :: 0 <= i < |lines| ==> (i in KeptPositions(lines) <==> Retained(lines, i))
    decreases |lines|
  {
    if lines != [] {
      var n := |lines| - 1;
      var prefix := lines[..n];
      KeptSelection(prefix);
      forall i | 0 <= i < n ensures Retained(prefix, i) == Retained(lines, i) {
        assert prefix[..i] == lines[..i];
      }
    }
  }

  /** The line at `i` is an exclude marker and no marker follows it. */
  predicate OpenExcludeAt(lines: seq<string>, i: nat)
    requires i < |lines|
  {
    Trim(lines[i]) == ExcludeMarker && forall j :: i < j < |lines| ==> !IsMarker(lines[j])
  }

  lemma OpenExcludeExtends(lines: seq<string>, i: nat)
    requires i < |lines| - 1 && !IsMarker(lines[|lines| - 1])
    ensures OpenExcludeAt(lines[..|lines| - 1], i) <==> OpenExcludeAt(lines, i)
  {
    var prefix := lines[..|lines| - 1];
    assert forall j :: i < j < |prefix| ==> prefix[j] == lines[j];
  }

  /** The flag is set exactly when some exclude marker has no marker after it. */
  lemma {:induction false} ExcludingMeansOpenExclude(lines: seq<string>)
    ensures Excluding(lines) <==> exists i :: 0 <= i < |lines| && OpenExcludeAt(lines, i)
    decreases |lines|
  {
    if lines != [] {
      var n := |lines| - 1;
      var prefix := lines[..n];
      if Trim(lines[n]) == ExcludeMarker {
        assert OpenExcludeAt(lines, n);
      } else if Trim(lines[n]) == IncludeMarker {
        forall i | 0 <= i < |lines| ensures !OpenExcludeAt(lines, i) {
          assert IsMarker(lines[n]);
        }
      } else {
        ExcludingMeansOpenExclude(prefix);
        assert !OpenExcludeAt(lines, n);
        forall i | 0 <= i < n ensures OpenExcludeAt(prefix, i) <==> OpenExcludeAt(lines, i) {
          OpenExcludeExtends(lines, i);
        }
      }
    }
  }

  /** No marker line is kept. */
  lemma {:induction false} KeptHasNoMarker(lines: seq<string>)
    ensures forall line :: line in Kept(lines) ==> !IsMarker(line)
    decreases |lines|
  {
    if lines != [] {
      KeptHasNoMarker(lines[..|lines| - 1]);
    }
  }

  /** Without markers every line is kept. */
  lemma {:induction false} KeptWithoutMarkers(lines: seq<string>)
    requires forall i :: 0 <= i < |lines| ==> !IsMarker(lines[i])
    ensures !Excluding(lines)
    ensures Kept(lines) == lines
    decreases |lines|
  {
    if lines != [] {
      var n := |lines| - 1;
      KeptWithoutMarkers(lines[..n]);
      assert lines[..n] + [lines[n]] == lines;
    }
  }

  /** After an exclude marker that no include marker follows, nothing more is kept. */
  lemma {:induction false} UnterminatedExclude(before: seq<string>, marker: string, after: seq<string>)
    requires Trim(marker) == ExcludeMarker
    requires forall i :: 0 <= i < |after| ==> Trim(after[i]) != IncludeMarker
    ensures Excluding(before + [marker] + after)
    ensures Kept(before + [marker] + after) == Kept(before)
    decreases |after|
  {
    var lines := before + [marker] + after;
    if after == [] {
      assert lines[..|lines| - 1] == before;
    } else {
      var n := |after| - 1;
      UnterminatedExclude(before, marker, after[..n]);
      assert lines[..|lines| - 1] == before + [marker] + after[..n];
    }
  }

  /** A text of marker-free lines, without carriage returns and without a
      final line feed, passes through the filter unchanged. */
  lemma FilterIdentity(command: string)
    requires '\r' !in command
    requires command == [] || command[|command| - 1] != '\n'
    requires forall line :: line in Lines(command) ==> !IsMarker(line)
    ensures Join(Kept(Lines(command)), "\n") == command
  {
    KeptWithoutMarkers(Lines(command));
    JoinLines(command);
  }
}
