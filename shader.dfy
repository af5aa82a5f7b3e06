/**
 * The sectioning parser of a combined shader file. Lines before any
 * directive, and after `#shared`, go to the shared section; `#vertex` and
 * `#fragment` switch to their own sections. The vertex program is the shared
 * section followed by the vertex section, and the fragment program is the
 * shared section followed by the fragment section. The file reader is a
 * sequence of lines, read one at a time.
 */
module Shaders {
  import opened Common

  datatype Section = Shared | Vertex | Fragment

  /** The three text accumulators. */
  datatype Sections = Sections(shared: string, vertex: string, fragment: string)
  {
    /** Appends `text` to the section `mode` selects. */
    function Append(mode: Section, text: string): (r: Sections)
      ensures r.shared == if mode == Shared then shared + text else shared
      ensures r.vertex == if mode == Vertex then vertex + text else vertex
      ensures r.fragment == if mode == Fragment then fragment + text else fragment
    {
      match mode
      case Shared => this.(shared := shared + text)
      case Vertex => this.(vertex := vertex + text)
      case Fragment => this.(fragment := fragment + text)
    }
  }

  const NoSections := Sections("", "", "")

  /** The two programs: each is the shared section followed by its own section. */
  function Programs(acc: Sections): (string, string)
  {
    (acc.shared + acc.vertex, acc.shared + acc.fragment)
  }

  /** One `readLine`: the next line and where the reader then stands, or None at the end. */
  datatype Reading = Reading(line: Option<string>, next: nat)

  function ReadLine(lines: seq<string>, next: nat): (r: Reading)
    requires next <= |lines|
    ensures r.next <= |lines|
    ensures r.line.Some? <==> next < |lines|
    ensures r.line.Some? ==> r.line.value == lines[next] && r.next == next + 1
    ensures r.line.None? ==> r.next == next
  {
    if next < |lines| then Reading(Some(lines[next]), next + 1) else Reading(None, next)
  }

  /** The text appended for a line: a missing line concatenates as the word "null". */
  function LineText(line: Option<string>): string
  {
    (if line.Some? then line.value else "null") + "\n"
  }

  /** The state at the head of the loop. */
  datatype LoopState = LoopState(next: nat, line: Option<string>, mode: Section, acc: Sections)

  /**
   * One pass of the loop body on the current line `line`, which the loop
   * test has found present. None is the null dereference the body makes
   * when a line it tests is missing.
   */
  function Iteration(lines: seq<string>, next: nat, line: string, mode: Section, acc: Sections): (r: Option<LoopState>)
    requires next <= |lines|
    ensures r.Some? ==> next <= r.value.next <= |lines|
    ensures r.Some? ==> r.value.next > next || r.value.line.None?
  {
    var afterEmpty := if |line| == 0 then ReadLine(lines, next) else Reading(Some(line), next);
    if afterEmpty.line.None? then None
    else
      var afterShared := if afterEmpty.line.value == "#shared" then ReadLine(lines, afterEmpty.next) else afterEmpty;
      var mode1 := if afterEmpty.line.value == "#shared" then Shared else mode;
      if afterShared.line.None? then None
      else
        var afterVertex := if afterShared.line.value == "#vertex" then ReadLine(lines, afterShared.next) else afterShared;
        var mode2 := if afterShared.line.value == "#vertex" then Vertex else mode1;
        if afterVertex.line.None? then None
        else
          var afterFragment := if afterVertex.line.value == "#fragment" then ReadLine(lines, afterVertex.next) else afterVertex;
          var mode3 := if afterVertex.line.value == "#fragment" then Fragment else mode2;
          var following := ReadLine(lines, afterFragment.next);
          Some(LoopState(following.next, following.line, mode3, acc.Append(mode3, LineText(afterFragment.line))))
  }

  /** The loop from a given head state to the end: the two programs, or None on a null dereference. */
  function Loop(lines: seq<string>, next: nat, line: Option<string>, mode: Section, acc: Sections): Option<(string, string)>
    requires next <= |lines|
    decreases |lines| - next, if line.Some? then 1 else 0
  {
    if line.None? then Some(Programs(acc))
    else
      match Iteration(lines, next, line.value, mode, acc)
      case None => None
      case Some(s) => Loop(lines, s.next, s.line, s.mode, s.acc)
  }

  /** Every section of `big` starts with the same section of `small`. */
  predicate Extends(big: Sections, small: Sections)
  {
    small.shared <= big.shared && small.vertex <= big.vertex && small.fragment <= big.fragment
  }

  /** One pass of the loop body only appends to the sections. */
  lemma IterationAppends(lines: seq<string>, next: nat, line: string, mode: Section, acc: Sections)
    requires next <= |lines|
    ensures var r := Iteration(lines, next, line, mode, acc);
            r.Some? ==> Extends(r.value.acc, acc)
  {
  }

  /**
   * The loop never drops text: when it ends normally, the two programs are
   * those of sections that extend the ones at the loop head, so both begin
   * with the same shared text.
   */
  lemma {:induction false} LoopOnlyAppends(lines: seq<string>, next: nat, line: Option<string>, mode: Section, acc: Sections)
    requires next <= |lines|
    ensures var r := Loop(lines, next, line, mode, acc);
            r.Some? ==> exists fin :: Extends(fin, acc) && Programs(fin) == r.value
    decreases |lines| - next, if line.Some? then 1 else 0
  {
    if line.None? {
      assert Extends(acc, acc);
    } else {
      IterationAppends(lines, next, line.value, mode, acc);
      match Iteration(lines, next, line.value, mode, acc)
      case None =>
      case Some(s) =>
        LoopOnlyAppends(lines, s.next, s.line, s.mode, s.acc);
        var r := Loop(lines, s.next, s.line, s.mode, s.acc);
        if r.Some? {
          var fin :| Extends(fin, s.acc) && Programs(fin) == r.value;
          assert Extends(fin, acc);
        }
    }
  }

  /** The parser on a whole file. */
  function Parse(lines: seq<string>): Option<(string, string)>
  {
    var first := ReadLine(lines, 0);
    Loop(lines, first.next, first.line, Shared, NoSections)
  }

  /** The loop of `parseShader` on the lines of the file; None is the null dereference. */
  method ParseShader(lines: seq<string>) returns (programs: Option<(string, string)>)
    ensures programs == Parse(lines)
  {
    var reading := ReadLine(lines, 0);
    var line, next := reading.line, reading.next;
    var mode := Shared;
    var shared, vertex, fragment := "", "", "";
    while line.Some?
      invariant next <= |lines|
      invariant Loop(lines, next, line, mode, Sections(shared, vertex, fragment)) == Parse(lines)
      decreases |lines| - next, if line.Some? then 1 else 0
    {
      ghost var head := LoopState(next, line, mode, Sections(shared, vertex, fragment));
      if |line.value| == 0 {
        reading := ReadLine(lines, next);
        line, next := reading.line, reading.next;
      }
      if line.None? {
        return None;
      }
      if line.value == "#shared" {
        mode := Shared;
        reading := ReadLine(lines, next);
        line, next := reading.line, reading.next;
      }
      if line.None? {
        return None;
      }
      if line.value == "#vertex" {
        mode := Vertex;
        reading := ReadLine(lines, next);
        line, next := reading.line, reading.next;
      }
      if line.None? {
        return None;
      }
      if line.value == "#fragment" {
        mode := Fragment;
        reading := ReadLine(lines, next);
        line, next := reading.line, reading.next;
      }
      var text := LineText(line);
      if mode == Shared {
        shared := shared + text;
      }
      if mode == Vertex {
        vertex := vertex + text;
      }
      if mode == Fragment {
        fragment := fragment + text;
      }
      reading := ReadLine(lines, next);
      line, next := reading.line, reading.next;
      assert Iteration(lines, head.next, head.line.value, head.mode, head.acc)
          == Some(LoopState(next, line, mode, Sections(shared, vertex, fragment)));
    }
    programs := Some(Programs(Sections(shared, vertex, fragment)));
  }

  // ---------------------------------------------------------------------
  // The intended sectioning, and when the parser achieves it.

  predicate Directive(line: string)
  {
    line == "#shared" || line == "#vertex" || line == "#fragment"
  }

  /** A line the parser consumes without appending it: an empty line or a directive. */
  predicate Special(line: string)
  {
    |line| == 0 || Directive(line)
  }

  /** The three directives are different strings, and none of them is empty. */
  lemma DirectivesDiffer()
    ensures "#shared" != "#vertex" && "#shared" != "#fragment" && "#vertex" != "#fragment"
  {
    assert "#shared"[1] != "#vertex"[1];
  }

  /** The section a directive selects. */
  function DirectiveSection(line: string): Section
    requires Directive(line)
  {
    if line == "#shared" then Shared else if line == "#vertex" then Vertex else Fragment
  }

  /**
   * The intended treatment of one line: an empty line is dropped, a
   * directive switches section, any other line goes with a newline to the
   * current section.
   */
  function SplitLine(line: string, mode: Section, acc: Sections): (Section, Sections)
  {
    if |line| == 0 then (mode, acc)
    else if Directive(line) then (DirectiveSection(line), acc)
    else (mode, acc.Append(mode, line + "\n"))
  }

  /** The intended treatment of lines[i..k], line by line. */
  function SplitRange(lines: seq<string>, i: nat, k: nat, mode: Section, acc: Sections): (Section, Sections)
    requires i <= k <= |lines|
    decreases k - i
  {
    if i == k then (mode, acc)
    else
      var next := SplitLine(lines[i], mode, acc);
      SplitRange(lines, i + 1, k, next.0, next.1)
  }

  /** The intended programs of a file. */
  function Intended(lines: seq<string>): (string, string)
  {
    Programs(SplitRange(lines, 0, |lines|, Shared, NoSections).1)
  }

  /** Between i and k, every empty line or directive is followed, before k, by an ordinary line. */
  predicate CleanRange(lines: seq<string>, i: nat, k: nat)
    requires i <= k <= |lines|
  {
    forall j :: i <= j < k && Special(lines[j]) ==> j + 1 < k && !Special(lines[j + 1])
  }

  /** A file the parser reads as intended: no empty line or directive directly before another or at the end. */
  predicate WellFormed(lines: seq<string>)
  {
    CleanRange(lines, 0, |lines|)
  }

  /** How the loop goes on once the lines before `k` are consumed. */
  function Continue(lines: seq<string>, k: nat, mode: Section, acc: Sections): Option<(string, string)>
    requires k <= |lines|
  {
    if k < |lines| then Loop(lines, k + 1, Some(lines[k]), mode, acc) else Some(Programs(acc))
  }

  /**
   * Over a clean range the loop does what the intended sectioning does,
   * and then goes on from the line at `k` with the same mode and sections.
   */
  lemma {:induction false} LoopFollowsSplit(lines: seq<string>, i: nat, k: nat, mode: Section, acc: Sections)
    requires i < k <= |lines| && CleanRange(lines, i, k)
    ensures var s := SplitRange(lines, i, k, mode, acc);
            Loop(lines, i + 1, Some(lines[i]), mode, acc) == Continue(lines, k, s.0, s.1)
    decreases k - i
  {
    var line := lines[i];
    if Special(line) {
      var body := lines[i + 1];
      assert !Special(body);
      var mode' := if |line| == 0 then mode else DirectiveSection(line);
      var acc' := acc.Append(mode', body + "\n");
      var following := ReadLine(lines, i + 2);
      assert Iteration(lines, i + 1, line, mode, acc) == Some(LoopState(following.next, following.line, mode', acc'));
      assert SplitRange(lines, i, k, mode, acc) == SplitRange(lines, i + 2, k, mode', acc') by {
        assert SplitRange(lines, i + 1, k, mode', acc) == SplitRange(lines, i + 2, k, mode', acc');
      }
      if i + 2 < k {
        LoopFollowsSplit(lines, i + 2, k, mode', acc');
      }
    } else {
      var acc' := acc.Append(mode, line + "\n");
      var following := ReadLine(lines, i + 1);
      assert Iteration(lines, i + 1, line, mode, acc) == Some(LoopState(following.next, following.line, mode, acc'));
      if i + 1 < k {
        LoopFollowsSplit(lines, i + 1, k, mode, acc');
      }
    }
  }

  /** A well-formed file is parsed into exactly the intended programs. */
  lemma WellFormedParsesAsIntended(lines: seq<string>)
    requires WellFormed(lines)
    ensures Parse(lines) == Some(Intended(lines))
  {
    if |lines| > 0 {
      LoopFollowsSplit(lines, 0, |lines|, Shared, NoSections);
    }
  }

  /**
   * On a well-formed file with one more line appended, the loop treats the
   * well-formed part as intended and then reaches the extra line as its
   * current line.
   */
  lemma {:induction false} WellFormedPrefixReachesLast(prefix: seq<string>, last: string)
    requires WellFormed(prefix)
    ensures var s := SplitRange(prefix, 0, |prefix|, Shared, NoSections);
            Parse(prefix + [last]) == Loop(prefix + [last], |prefix| + 1, Some(last), s.0, s.1)
  {
    var lines := prefix + [last];
    var n := |prefix|;
    assert lines[..n] == prefix && lines[n] == last;
    SplitRangeOfPrefix(prefix, lines, 0, Shared, NoSections);
    if n > 0 {
      assert CleanRange(lines, 0, n) by {
        forall j | 0 <= j < n
          ensures lines[j] == prefix[j]
        {
        }
      }
      LoopFollowsSplit(lines, 0, n, Shared, NoSections);
    }
  }

  /**
   * A file that is well formed except for a last line that is empty,
   * `#shared` or `#vertex` makes the parser dereference the missing line
   * after it.
   */
  lemma TrailingOpenerFails(prefix: seq<string>, last: string)
    requires WellFormed(prefix)
    requires last == "" || last == "#shared" || last == "#vertex"
    ensures Parse(prefix + [last]) == None
  {
    WellFormedPrefixReachesLast(prefix, last);
    var s := SplitRange(prefix, 0, |prefix|, Shared, NoSections);
    OpenerAtEnd(prefix + [last], s.0, s.1);
  }

  /** The pass on a last line that is empty, `#shared` or `#vertex` tests the missing line after it. */
  lemma OpenerAtEnd(lines: seq<string>, mode: Section, acc: Sections)
    requires |lines| > 0
    requires var last := lines[|lines| - 1]; last == "" || last == "#shared" || last == "#vertex"
    ensures Loop(lines, |lines|, Some(lines[|lines| - 1]), mode, acc) == None
  {
    DirectivesDiffer();
    assert Iteration(lines, |lines|, lines[|lines| - 1], mode, acc) == None;
  }

  /**
   * A trailing `#fragment` instead reads the missing line as text: the word
   * "null" ends the fragment program.
   */
  lemma TrailingFragmentAppendsNull(prefix: seq<string>)
    requires WellFormed(prefix)
    ensures var intended := SplitRange(prefix, 0, |prefix|, Shared, NoSections).1;
            Parse(prefix + ["#fragment"]) == Some(Programs(intended.Append(Fragment, "null\n")))
  {
    WellFormedPrefixReachesLast(prefix, "#fragment");
    var s := SplitRange(prefix, 0, |prefix|, Shared, NoSections);
    FragmentAtEnd(prefix + ["#fragment"], s.0, s.1);
  }

  /** The pass on a `#fragment` that is the last line appends the missing line as "null". */
  lemma FragmentAtEnd(lines: seq<string>, mode: Section, acc: Sections)
    ensures Loop(lines, |lines|, Some("#fragment"), mode, acc) == Some(Programs(acc.Append(Fragment, "null\n")))
  {
    DirectivesDiffer();
    assert LineText(ReadLine(lines, |lines|).line) == "null\n";
    assert Iteration(lines, |lines|, "#fragment", mode, acc)
        == Some(LoopState(|lines|, None, Fragment, acc.Append(Fragment, "null\n")));
  }

  /** The intended treatment of a range depends only on the lines in it. */
  lemma {:induction false} SplitRangeOfPrefix(prefix: seq<string>, lines: seq<string>, i: nat, mode: Section, acc: Sections)
    requires i <= |prefix| <= |lines| && prefix == lines[..|prefix|]
    ensures SplitRange(prefix, i, |prefix|, mode, acc) == SplitRange(lines, i, |prefix|, mode, acc)
    decreases |prefix| - i
  {
    if i < |prefix| {
      assert prefix[i] == lines[i];
      var next := SplitLine(prefix[i], mode, acc);
      SplitRangeOfPrefix(prefix, lines, i + 1, next.0, next.1);
    }
  }

  /**
   * Directives are tested in the fixed order `#shared`, `#vertex`,
   * `#fragment`: a `#fragment` right after `#vertex` still switches, but a
   * `#vertex` right after `#fragment` is kept as fragment text.
   */
  lemma DirectiveOrderMatters()
    ensures Parse(["#vertex", "#fragment", "x"]) == Some(("", "x\n"))
    ensures Parse(["#fragment", "#vertex", "x"]) == Some(("", "#vertex\nx\n"))
  {
    DirectivesDiffer();
    assert "x" != "#shared" && "x" != "#vertex" && "x" != "#fragment";
    var switched := ["#vertex", "#fragment", "x"];
    var fragmentX := Sections("", "", "x\n");
    assert NoSections.Append(Fragment, LineText(Some("x"))) == fragmentX;
    assert Iteration(switched, 1, "#vertex", Shared, NoSections) == Some(LoopState(3, None, Fragment, fragmentX));
    assert Loop(switched, 1, Some("#vertex"), Shared, NoSections) == Loop(switched, 3, None, Fragment, fragmentX);
    assert "" + "" == "" && "" + fragmentX.fragment == fragmentX.fragment;
    assert Programs(fragmentX) == ("", "x\n");
    assert Parse(switched) == Loop(switched, 1, Some("#vertex"), Shared, NoSections);

    var kept := ["#fragment", "#vertex", "x"];
    var fragmentV := Sections("", "", "#vertex\n");
    var fragmentVX := Sections("", "", "#vertex\nx\n");
    assert NoSections.Append(Fragment, LineText(Some("#vertex"))) == fragmentV;
    assert fragmentV.Append(Fragment, LineText(Some("x"))) == fragmentVX;
    assert Iteration(kept, 1, "#fragment", Shared, NoSections) == Some(LoopState(3, Some("x"), Fragment, fragmentV));
    assert Iteration(kept, 3, "x", Fragment, fragmentV) == Some(LoopState(3, None, Fragment, fragmentVX));
    assert Loop(kept, 1, Some("#fragment"), Shared, NoSections) == Loop(kept, 3, Some("x"), Fragment, fragmentV);
    assert Loop(kept, 3, Some("x"), Fragment, fragmentV) == Loop(kept, 3, None, Fragment, fragmentVX);
    assert "" + fragmentVX.fragment == fragmentVX.fragment;
    assert Programs(fragmentVX) == ("", "#vertex\nx\n");
    assert Parse(kept) == Loop(kept, 1, Some("#fragment"), Shared, NoSections);
  }

  /** Only one empty line is skipped: of two in a row, the second is kept as an empty text line. */
  lemma SecondEmptyLineIsKept()
    ensures Parse(["a", "", "", "b"]) == Some(("a\n\nb\n", "a\n\nb\n"))
  {
    var lines := ["a", "", "", "b"];
    var one := Sections("a\n", "", "");
    var two := Sections("a\n\n", "", "");
    var three := Sections("a\n\nb\n", "", "");
    SecondEmptyLinePasses();
    assert Loop(lines, 1, Some("a"), Shared, NoSections) == Loop(lines, 2, Some(""), Shared, one);
    assert Loop(lines, 2, Some(""), Shared, one) == Loop(lines, 4, Some("b"), Shared, two);
    assert Loop(lines, 4, Some("b"), Shared, two) == Some(Programs(three));
    assert three.shared + "" == three.shared;
    assert Parse(lines) == Loop(lines, 1, Some("a"), Shared, NoSections);
  }

  /** The three passes of the loop body on ["a", "", "", "b"]. */
  lemma SecondEmptyLinePasses()
    ensures Iteration(["a", "", "", "b"], 1, "a", Shared, NoSections)
            == Some(LoopState(2, Some(""), Shared, Sections("a\n", "", "")))
    ensures Iteration(["a", "", "", "b"], 2, "", Shared, Sections("a\n", "", ""))
            == Some(LoopState(4, Some("b"), Shared, Sections("a\n\n", "", "")))
    ensures Iteration(["a", "", "", "b"], 4, "b", Shared, Sections("a\n\n", "", ""))
            == Some(LoopState(4, None, Shared, Sections("a\n\nb\n", "", "")))
  {
    DirectivesDiffer();
    assert "a" != "#shared" && "a" != "#vertex" && "a" != "#fragment";
    assert "b" != "#shared" && "b" != "#vertex" && "b" != "#fragment";
    assert "" != "#shared" && "" != "#vertex" && "" != "#fragment";
    assert NoSections.Append(Shared, LineText(Some("a"))) == Sections("a\n", "", "");
    assert Sections("a\n", "", "").Append(Shared, LineText(Some(""))) == Sections("a\n\n", "", "");
    assert Sections("a\n\n", "", "").Append(Shared, LineText(Some("b"))) == Sections("a\n\nb\n", "", "");
  }
}
