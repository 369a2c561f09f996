/** Diagnostics a sniff reports, and the three assertions the unit tests make
    about the diagnostics of one sniffed file. */
module Findings {

  datatype Option<T> = None | Some(value: T)

  /** Warning: behaviour differs across the tested range; Error: the code
      does not work in part of it. */
  datatype Severity = Warning | Error

  datatype Finding = Finding(line: nat, severity: Severity, message: string)

  /** A file's findings: what find reports for each of xs, in order. The
      result holds exactly the reports of the individual elements. */
  function Collect<T>(xs: seq<T>, find: T -> Option<Finding>): (fs: seq<Finding>)
    ensures forall f :: f in fs ==> exists x :: x in xs && find(x) == Some(f)
    ensures forall x :: x in xs && find(x).Some? ==> find(x).value in fs
    ensures |fs| <= |xs|
  {
    if xs == [] then []
    else
      var rest := Collect(xs[1..], find);
      match find(xs[0])
      case None => rest
      case Some(f) => [f] + rest
  }

  /** Nothing is collected when nothing is found. */
  lemma {:induction false} CollectNothing<T>(xs: seq<T>, find: T -> Option<Finding>)
    requires forall x :: x in xs ==> find(x) == None
    ensures Collect(xs, find) == []
  {
    if xs != [] {
      assert xs[0] in xs;
      CollectNothing(xs[1..], find);
    }
  }

  /** A line is clean when no element reports on it. */
  lemma CleanWhereNothingReported<T>(xs: seq<T>, find: T -> Option<Finding>, line: nat)
    requires forall x :: x in xs && find(x).Some? ==> find(x).value.line != line
    ensures NoViolationAt(Collect(xs, find), line)
  {
    var fs := Collect(xs, find);
    forall f | f in fs ensures f.line != line {
      var x :| x in xs && find(x) == Some(f);
    }
  }

  /** No finding is reported twice. */
  predicate Distinct(fs: seq<Finding>) {
    forall a, b :: 0 <= a < b < |fs| ==> fs[a] != fs[b]
  }

  /** When no two elements report the same finding, the file reports no
      finding twice. */
  lemma {:induction false} CollectDistinct<T>(xs: seq<T>, find: T -> Option<Finding>)
    requires forall i, j :: 0 <= i < j < |xs| && find(xs[i]).Some? ==> find(xs[i]) != find(xs[j])
    ensures Distinct(Collect(xs, find))
  {
    if xs != [] {
      var tail := xs[1..];
      forall i, j | 0 <= i < j < |tail| && find(tail[i]).Some? ensures find(tail[i]) != find(tail[j]) {
        assert tail[i] == xs[i + 1] && tail[j] == xs[j + 1];
      }
      CollectDistinct(tail, find);
      var rest := Collect(tail, find);
      match find(xs[0])
      case None =>
      case Some(f) =>
        var fs := Collect(xs, find);
        assert fs == [f] + rest;
        forall b | 0 < b < |fs| ensures fs[0] != fs[b] {
          assert fs[b] == rest[b - 1];
          var x :| x in tail && find(x) == Some(fs[b]);
          var j :| 0 <= j < |tail| && tail[j] == x;
          assert xs[j + 1] == x;
        }
        forall a, b | 0 < a < b < |fs| ensures fs[a] != fs[b] {
          assert fs[a] == rest[a - 1] && fs[b] == rest[b - 1];
        }
    }
  }

  /** assertWarning(file, line, message): a warning with exactly this text is reported on the line. */
  predicate HasWarning(fs: seq<Finding>, line: nat, message: string) {
    Finding(line, Warning, message) in fs
  }

  /** assertError(file, line, message): an error with exactly this text is reported on the line. */
  predicate HasError(fs: seq<Finding>, line: nat, message: string) {
    Finding(line, Error, message) in fs
  }

  /** assertNoViolation(file, line): nothing at all is reported on the line. */
  predicate NoViolationAt(fs: seq<Finding>, line: nat) {
    forall f :: f in fs ==> f.line != line
  }

  /** assertNoViolation(file): nothing is reported anywhere in the file. */
  predicate NoViolation(fs: seq<Finding>) {
    fs == []
  }

  /** The warning is reported on every one of the lines. */
  predicate WarnedOnAll(fs: seq<Finding>, lines: seq<nat>, message: string) {
    forall k :: 0 <= k < |lines| ==> HasWarning(fs, lines[k], message)
  }

  /** Nothing is reported on any of the lines. */
  predicate CleanOnAll(fs: seq<Finding>, lines: seq<nat>) {
    forall k :: 0 <= k < |lines| ==> NoViolationAt(fs, lines[k])
  }
}
