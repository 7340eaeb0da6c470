/** The `apt_package_dist_updates` fact: the packages a simulated
    `apt-get dist-upgrade` would install or upgrade, read from the lines it
    prints. */
module DistUpdates {
  import opened Wrappers
  import opened Strings

  /** The package a line of the simulation names: `Inst`, one whitespace
      character, then the name, up to the next whitespace or the end of the
      line. The `[old version]` and `(candidate ...)` annotations that follow
      are not part of it. */
  function InstPackage(line: string): (r: Option<string>)
    ensures r.Some? ==>
      && r.value != [] && NoSpace(r.value)
      && |line| >= 5 + |r.value| && line[..4] == "Inst" && IsSpace(line[4])
      && line[5..5 + |r.value|] == r.value
      && (|line| == 5 + |r.value| || IsSpace(line[5 + |r.value|]))
    ensures |line| < 5 || line[..4] != "Inst" || !IsSpace(line[4]) ==> r.None?
  {
    if |line| > 4 && line[..4] == "Inst" && IsSpace(line[4]) then
      var name := TakeToken(line[5..]);
      if name == [] then None else Some(name)
    else None
  }

  /** The names of the `Inst` lines, in the order of the lines. */
  function PackageNames(lines: seq<string>): (names: seq<string>)
    ensures |names| <= |lines|
    ensures forall n :: n in names <==> exists i :: 0 <= i < |lines| && InstPackage(lines[i]) == Some(n)
  {
    if lines == [] then []
    else
      var rest := PackageNames(lines[1..]);
      assert forall n :: n in rest <==> exists i :: 1 <= i < |lines| && InstPackage(lines[i]) == Some(n) by {
        forall n | n in rest
          ensures exists i :: 1 <= i < |lines| && InstPackage(lines[i]) == Some(n)
        {
          var j :| 0 <= j < |lines[1..]| && InstPackage(lines[1..][j]) == Some(n);
          assert lines[j + 1] == lines[1..][j];
        }
        forall n | exists i :: 1 <= i < |lines| && InstPackage(lines[i]) == Some(n)
          ensures n in rest
        {
          var i :| 1 <= i < |lines| && InstPackage(lines[i]) == Some(n);
          assert lines[1..][i - 1] == lines[i];
        }
      }
      match InstPackage(lines[0])
      case Some(n) => [n] + rest
      case None => rest
  }

  /** The lines of a command's output. */
  function Lines(output: string): seq<string> {
    Split(output, '\n')
  }

  /** The fact's value: nothing when there are no dist updates, else the
      packages of the `dist-upgrade` simulation. The plain `upgrade`
      simulation's output is not read. */
  function PackageDistUpdates(hasDistUpdates: bool, upgradeOutput: string, distUpgradeOutput: string): (r: Option<seq<string>>)
    ensures r.None? <==> !hasDistUpdates
    ensures r.Some? ==> forall n :: n in r.value <==>
      exists i :: 0 <= i < |Lines(distUpgradeOutput)| && InstPackage(Lines(distUpgradeOutput)[i]) == Some(n)
  {
    if hasDistUpdates then Some(PackageNames(Lines(distUpgradeOutput))) else None
  }

  // ---------------------------------------------------------------------------
  // Properties

  /** The converse of `InstPackage`: an `Inst` line gives back the name it was written with. */
  lemma InstPackageOf(sep: char, name: string, rest: string)
    requires IsSpace(sep) && name != [] && NoSpace(name)
    requires rest == [] || IsSpace(rest[0])
    ensures InstPackage("Inst" + [sep] + name + rest) == Some(name)
  {
    var line := "Inst" + [sep] + name + rest;
    assert line[..4] == "Inst" && line[4] == sep;
    assert line[5..] == name + rest;
    TakeTokenOf(name, rest);
  }

  /** Names are collected line by line: output read in two parts gives the two lists one after the other. */
  lemma {:induction false} PackageNamesAppend(a: seq<string>, b: seq<string>)
    ensures PackageNames(a + b) == PackageNames(a) + PackageNames(b)
    decreases |a|
  {
    if a == [] {
      assert a + b == b;
    } else {
      assert (a + b)[0] == a[0];
      assert (a + b)[1..] == a[1..] + b;
      PackageNamesAppend(a[1..], b);
    }
  }

  /** A line that names no package (a `Conf` line, say) adds nothing, wherever it stands. */
  lemma IgnoredLine(a: seq<string>, line: string, b: seq<string>)
    requires InstPackage(line).None?
    ensures PackageNames(a + [line] + b) == PackageNames(a + b)
  {
    assert [line][1..] == [];
    assert PackageNames([line]) == [];
    PackageNamesAppend(a, [line]);
    PackageNamesAppend(a + [line], b);
    PackageNamesAppend(a, b);
    assert PackageNames(a + [line]) == PackageNames(a);
  }

  /** Each `Inst` line contributes exactly one name, so the list is as long as there are such lines. */
  function InstCount(lines: seq<string>): nat {
    if lines == [] then 0 else (if InstPackage(lines[0]).Some? then 1 else 0) + InstCount(lines[1..])
  }

  lemma {:induction false} PackageNamesCount(lines: seq<string>)
    ensures |PackageNames(lines)| == InstCount(lines)
    decreases |lines|
  {
    if lines != [] {
      PackageNamesCount(lines[1..]);
    }
  }

  predicate Distinct(xs: seq<string>) {
    forall i, j :: 0 <= i < j < |xs| ==> xs[i] != xs[j]
  }

  /** When the `Inst` lines name different packages, no name is listed twice. */
  lemma {:induction false} PackageNamesDistinct(lines: seq<string>)
    requires forall i, j :: 0 <= i < j < |lines| ==>
      (InstPackage(lines[i]).Some? && InstPackage(lines[j]).Some? ==> InstPackage(lines[i]) != InstPackage(lines[j]))
    ensures Distinct(PackageNames(lines))
    decreases |lines|
  {
    if lines != [] {
      var rest := PackageNames(lines[1..]);
      forall i, j | 0 <= i < j < |lines[1..]| && InstPackage(lines[1..][i]).Some? && InstPackage(lines[1..][j]).Some?
        ensures InstPackage(lines[1..][i]) != InstPackage(lines[1..][j])
      {
        assert lines[1..][i] == lines[i + 1] && lines[1..][j] == lines[j + 1];
      }
      PackageNamesDistinct(lines[1..]);
      match InstPackage(lines[0])
      case None =>
      case Some(n) =>
        assert PackageNames(lines) == [n] + rest;
    }
  }

  /** Splitting newline-terminated lines gives them back, followed by the empty remainder. */
  lemma {:induction false} LinesOfUnlines(ls: seq<string>)
    requires forall i :: 0 <= i < |ls| ==> '\n' !in ls[i]
    ensures Lines(Unlines(ls)) == ls + [""]
    decreases |ls|
  {
    if ls != [] {
      LinesOfUnlines(ls[1..]);
      SplitAppend(ls[0], '\n', Unlines(ls[1..]));
      SplitNoSeparator(ls[0], '\n');
      assert ls[0] + "\n" + Unlines(ls[1..]) == ls[0] + ['\n'] + Unlines(ls[1..]);
    }
  }

  /** Output read in two parts, the first ending at a line break, gives the two lists one after the other. */
  lemma ConcatenatedOutput(a: string, b: string)
    ensures PackageNames(Lines(a + "\n" + b)) == PackageNames(Lines(a)) + PackageNames(Lines(b))
  {
    SplitAppend(a, '\n', b);
    assert a + "\n" + b == a + ['\n'] + b;
    PackageNamesAppend(Lines(a), Lines(b));
  }
}
