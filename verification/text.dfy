/** Lines of text: splitting and joining on one separator, newline-terminated
    files, the two TSV sanitisers and the two basename functions. */
module Text {

  // ---------------------------------------------------------------- separators

  /** Go's strings.Split and Python's str.split on a one-character separator. */
  function Split(s: string, sep: char): (parts: seq<string>)
    ensures |parts| >= 1
  {
    if s == "" then [""]
    else
      var rest := Split(s[1..], sep);
      if s[0] == sep then [""] + rest else [[s[0]] + rest[0]] + rest[1..]
  }

  function Join(parts: seq<string>, sep: char): string
    requires parts != []
  {
    if |parts| == 1 then parts[0] else parts[0] + [sep] + Join(parts[1..], sep)
  }

  /** The first separator of `s` ends the first part. */
  lemma {:induction false} SplitFirst(s: string, sep: char, i: nat)
    requires i < |s| && s[i] == sep && sep !in s[..i]
    ensures Split(s, sep) == [s[..i]] + Split(s[i + 1..], sep)
  {
    if i == 0 {
      assert s[..0] == "";
    } else {
      assert s[1..][i - 1] == sep && s[1..][..i - 1] == s[1..i];
      assert forall k | 1 <= k < i :: s[k] == s[..i][k];
      SplitFirst(s[1..], sep, i - 1);
      assert s[1..][i..] == s[i + 1..];
      assert [s[0]] + s[1..i] == s[..i];
      assert s[0] == s[..i][0];
    }
  }

  lemma {:induction false} SplitWhole(s: string, sep: char)
    requires sep !in s
    ensures Split(s, sep) == [s]
  {
    if s != "" {
      SplitWhole(s[1..], sep);
      assert [s[0]] + s[1..] == s;
    }
  }

  /** Joining is undone by splitting when no part holds the separator. */
  lemma {:induction false} SplitJoin(parts: seq<string>, sep: char)
    requires parts != [] && forall p | p in parts :: sep !in p
    ensures Split(Join(parts, sep), sep) == parts
  {
    if |parts| == 1 {
      SplitWhole(parts[0], sep);
    } else {
      var s := Join(parts, sep);
      var i := |parts[0]|;
      assert s == parts[0] + ([sep] + Join(parts[1..], sep));
      assert s[..i] == parts[0] && s[i] == sep && s[i + 1..] == Join(parts[1..], sep);
      SplitFirst(s, sep, i);
      SplitJoin(parts[1..], sep);
      assert [parts[0]] + parts[1..] == parts;
    }
  }

  /** What was split is free of the separator and joins back to the whole. */
  lemma {:induction false} JoinSplit(s: string, sep: char)
    ensures Join(Split(s, sep), sep) == s
    ensures forall p | p in Split(s, sep) :: sep !in p
  {
    if s != "" {
      JoinSplit(s[1..], sep);
      var rest := Split(s[1..], sep);
      if s[0] == sep {
        assert Split(s, sep)[1..] == rest;
        assert [sep] + s[1..] == s;
      } else {
        JoinLonger(s[0], rest, sep);
        assert [s[0]] + s[1..] == s;
        assert forall p | p in rest[1..] :: p in rest;
      }
    }
  }

  lemma JoinLonger(c: char, parts: seq<string>, sep: char)
    requires parts != []
    ensures Join([[c] + parts[0]] + parts[1..], sep) == [c] + Join(parts, sep)
  {
    var longer := [[c] + parts[0]] + parts[1..];
    assert longer[1..] == parts[1..];
    assert |parts| > 1 ==>
        [c] + parts[0] + [sep] + Join(parts[1..], sep) == [c] + (parts[0] + [sep] + Join(parts[1..], sep));
  }

  // ---------------------------------------------------------------- files of lines

  /** The content of a file to which each line was appended with a newline. */
  function Unlines(lines: seq<string>): string
  {
    if lines == [] then "" else lines[0] + "\n" + Unlines(lines[1..])
  }

  /** The lines a reader sees: the pieces between newlines, the last one only
      when it is not empty. */
  function Lines(content: string): seq<string>
  {
    var parts := Split(content, '\n');
    if parts[|parts| - 1] == "" then parts[..|parts| - 1] else parts
  }

  function Newlines(s: string): nat
  {
    if s == "" then 0 else (if s[0] == '\n' then 1 else 0) + Newlines(s[1..])
  }

  ghost predicate NewlineFree(lines: seq<string>)
  {
    forall l | l in lines :: '\n' !in l
  }

  lemma {:induction false} UnlinesConcat(a: seq<string>, b: seq<string>)
    ensures Unlines(a + b) == Unlines(a) + Unlines(b)
  {
    if a == [] {
      assert a + b == b;
    } else {
      UnlinesConcat(a[1..], b);
      assert (a + b)[1..] == a[1..] + b;
    }
  }

  lemma {:induction false} SplitUnlines(lines: seq<string>)
    requires NewlineFree(lines)
    ensures Split(Unlines(lines), '\n') == lines + [""]
  {
    if lines == [] {
    } else {
      var s := Unlines(lines);
      var i := |lines[0]|;
      assert s == lines[0] + ("\n" + Unlines(lines[1..]));
      assert s[..i] == lines[0] && s[i] == '\n' && s[i + 1..] == Unlines(lines[1..]);
      SplitFirst(s, '\n', i);
      SplitUnlines(lines[1..]);
      assert [lines[0]] + (lines[1..] + [""]) == lines + [""];
    }
  }

  /** Reading back what was appended line by line. */
  lemma LinesUnlines(lines: seq<string>)
    requires NewlineFree(lines)
    ensures Lines(Unlines(lines)) == lines
  {
    SplitUnlines(lines);
    assert (lines + [""])[..|lines|] == lines;
  }

  /** Python's text mode ends a line at CR and CR LF as well. */
  function Universal(content: string): string
  {
    if content == "" then ""
    else if content[0] == '\r' then
      "\n" + Universal(if |content| >= 2 && content[1] == '\n' then content[2..] else content[1..])
    else [content[0]] + Universal(content[1..])
  }

  function FileLines(content: string): seq<string>
  {
    Lines(Universal(content))
  }

  lemma {:induction false} UniversalIsIdentity(s: string)
    requires '\r' !in s
    ensures Universal(s) == s
  {
    if s != "" {
      UniversalIsIdentity(s[1..]);
      assert [s[0]] + s[1..] == s;
    }
  }

  lemma {:induction false} NoReturns(lines: seq<string>)
    requires forall l | l in lines :: '\r' !in l
    ensures '\r' !in Unlines(lines)
  {
    if lines != [] {
      NoReturns(lines[1..]);
      assert Unlines(lines) == lines[0] + "\n" + Unlines(lines[1..]);
      assert lines[0] in lines;
    }
  }

  /** A log of lines without line breaks reads back as those lines. */
  lemma FileRoundTrip(lines: seq<string>)
    requires forall l | l in lines :: '\n' !in l && '\r' !in l
    ensures FileLines(Unlines(lines)) == lines
  {
    NoReturns(lines);
    UniversalIsIdentity(Unlines(lines));
    LinesUnlines(lines);
  }

  lemma {:induction false} NewlinesConcat(a: string, b: string)
    ensures Newlines(a + b) == Newlines(a) + Newlines(b)
  {
    if a == "" {
      assert a + b == b;
    } else {
      NewlinesConcat(a[1..], b);
      assert (a + b)[1..] == a[1..] + b;
    }
  }

  lemma {:induction false} NoNewlines(s: string)
    requires '\n' !in s
    ensures Newlines(s) == 0
  {
    if s != "" {
      NoNewlines(s[1..]);
    }
  }

  lemma {:induction false} SomeNewlines(s: string)
    ensures Newlines(s) == 0 <==> '\n' !in s
  {
    if s != "" {
      SomeNewlines(s[1..]);
      assert s == [s[0]] + s[1..];
    }
  }

  /** Lines that hold newlines count for more than they are. */
  lemma {:induction false} UnlinesCount(lines: seq<string>)
    ensures Newlines(Unlines(lines)) >= |lines|
    ensures Newlines(Unlines(lines)) == |lines| <==> NewlineFree(lines)
  {
    if lines != [] {
      UnlinesCount(lines[1..]);
      NewlinesConcat(lines[0] + "\n", Unlines(lines[1..]));
      NewlinesConcat(lines[0], "\n");
      assert "\n"[1..] == "" && Newlines("\n") == 1;
      SomeNewlines(lines[0]);
      assert lines[0] in lines && forall l :: l in lines <==> l == lines[0] || l in lines[1..];
    }
  }

  lemma {:induction false} NewlinesUnlines(lines: seq<string>)
    requires NewlineFree(lines)
    ensures Newlines(Unlines(lines)) == |lines|
  {
    if lines != [] {
      NewlinesConcat(lines[0] + "\n", Unlines(lines[1..]));
      NewlinesConcat(lines[0], "\n");
      NoNewlines(lines[0]);
      NewlinesUnlines(lines[1..]);
    }
  }

  // ---------------------------------------------------------------- sanitising

  predicate Clean(s: string)
  {
    '\t' !in s && '\n' !in s && '\r' !in s
  }

  /** The sanitiser as Python computes it on code points: tab and newline become
      a space, carriage return disappears. */
  function Sanitise(s: string): string
  {
    if s == "" then ""
    else (if s[0] == '\t' || s[0] == '\n' then " " else if s[0] == '\r' then "" else [s[0]]) + Sanitise(s[1..])
  }

  /** The sanitiser as Swift computes it.  Swift iterates over grapheme clusters,
      and a carriage return followed by a newline is one cluster that is neither
      of the two characters, so the pair goes through unchanged. */
  function SwiftSanitise(s: string): string
  {
    if s == "" then ""
    else if |s| >= 2 && s[0] == '\r' && s[1] == '\n' then "\r\n" + SwiftSanitise(s[2..])
    else (if s[0] == '\t' || s[0] == '\n' then " " else if s[0] == '\r' then "" else [s[0]]) + SwiftSanitise(s[1..])
  }

  ghost predicate HasCrLf(s: string)
  {
    exists i :: 0 <= i < |s| - 1 && s[i] == '\r' && s[i + 1] == '\n'
  }

  lemma {:induction false} SanitiseIsClean(s: string)
    ensures Clean(Sanitise(s))
    ensures |Sanitise(s)| <= |s|
    ensures Sanitise(s) == s <==> Clean(s)
  {
    if s != "" {
      SanitiseIsClean(s[1..]);
      var head := if s[0] == '\t' || s[0] == '\n' then " " else if s[0] == '\r' then "" else [s[0]];
      assert Clean(head);
      assert s == [s[0]] + s[1..];
      if s[0] == '\r' {
        assert |Sanitise(s)| < |s|;
      } else {
        assert Sanitise(s)[0] == head[0] && Sanitise(s)[1..] == Sanitise(s[1..]);
      }
    }
  }

  lemma CrLfTail(s: string)
    requires s != ""
    ensures HasCrLf(s) <==> (|s| >= 2 && s[0] == '\r' && s[1] == '\n') || HasCrLf(s[1..])
  {
    if HasCrLf(s) {
      var i :| 0 <= i < |s| - 1 && s[i] == '\r' && s[i + 1] == '\n';
      if i > 0 {
        assert s[1..][i - 1] == '\r' && s[1..][i - 1 + 1] == '\n';
      }
    }
    if HasCrLf(s[1..]) {
      var i :| 0 <= i < |s[1..]| - 1 && s[1..][i] == '\r' && s[1..][i + 1] == '\n';
      assert s[i + 1] == '\r' && s[i + 1 + 1] == '\n';
    }
  }

  /** Exactly when the Swift sanitiser does what its comment says: it matches
      Python, and keeps newlines out, iff the text has no CR LF pair. */
  lemma {:induction false} SwiftSanitiseExact(s: string)
    ensures SwiftSanitise(s) == Sanitise(s) <==> !HasCrLf(s)
    ensures '\n' in SwiftSanitise(s) <==> HasCrLf(s)
    ensures '\t' !in SwiftSanitise(s)
  {
    SanitiseIsClean(s);
    if s != "" {
      CrLfTail(s);
      if |s| >= 2 && s[0] == '\r' && s[1] == '\n' {
        SwiftSanitiseExact(s[2..]);
        assert SwiftSanitise(s)[1] == '\n';
      } else {
        SwiftSanitiseExact(s[1..]);
        SanitiseIsClean(s[1..]);
        var head := if s[0] == '\t' || s[0] == '\n' then " " else if s[0] == '\r' then "" else [s[0]];
        assert SwiftSanitise(s) == head + SwiftSanitise(s[1..]);
        assert Sanitise(s) == head + Sanitise(s[1..]);
        if HasCrLf(s[1..]) {
          assert '\n' in SwiftSanitise(s[1..]);
        }
      }
    }
  }

  // ---------------------------------------------------------------- basenames

  /** Python's os.path.basename: what follows the last slash. */
  function PyBasename(p: string): string
  {
    var parts := Split(p, '/');
    parts[|parts| - 1]
  }

  function StripSlashes(p: string): string
  {
    if p != "" && p[|p| - 1] == '/' then StripSlashes(p[..|p| - 1]) else p
  }

  /** NSString's lastPathComponent, which ignores trailing slashes. */
  function SwiftBasename(p: string): string
  {
    if p != "" && StripSlashes(p) == "" then "/" else PyBasename(StripSlashes(p))
  }

  lemma {:induction false} SplitLastEmpty(p: string)
    ensures Split(p, '/')[|Split(p, '/')| - 1] == "" <==> p == "" || p[|p| - 1] == '/'
  {
    if p == "" {
    } else if |p| == 1 {
      assert p[1..] == "";
    } else {
      SplitLastEmpty(p[1..]);
      assert p[1..][|p| - 2] == p[|p| - 1];
    }
  }

  lemma {:induction false} StripSlashesEnd(p: string)
    ensures StripSlashes(p) != "" ==> StripSlashes(p)[|StripSlashes(p)| - 1] != '/'
  {
    if p != "" && p[|p| - 1] == '/' {
      StripSlashesEnd(p[..|p| - 1]);
    }
  }

  /** The live writer and the rebuilder store the same file name iff the logged
      path does not end in a slash. */
  lemma BasenamesAgree(p: string)
    ensures SwiftBasename(p) == PyBasename(p) <==> p == "" || p[|p| - 1] != '/'
  {
    SplitLastEmpty(p);
    if p != "" && p[|p| - 1] == '/' {
      StripSlashesEnd(p);
      SplitLastEmpty(StripSlashes(p));
    }
  }

  lemma PyBasenameStep(p: string)
    requires p != ""
    ensures PyBasename(p) == if p[0] != '/' && '/' !in p[1..] then p else PyBasename(p[1..])
  {
    hide Split;
    OnePart(p[1..], '/');
    var rest := Split(p[1..], '/');
    SplitStep(p, '/');
    if p[0] != '/' && |rest| == 1 {
      assert [p[0]] + p[1..] == p;
    } else if p[0] == '/' {
      assert ([""] + rest)[|rest|] == rest[|rest| - 1];
    } else {
      assert ([[p[0]] + rest[0]] + rest[1..])[|rest| - 1] == rest[|rest| - 1];
    }
  }

  lemma SplitStep(s: string, sep: char)
    requires s != ""
    ensures
      var rest := Split(s[1..], sep);
      Split(s, sep) == if s[0] == sep then [""] + rest else [[s[0]] + rest[0]] + rest[1..]
  {
  }

  /** Python's base name is what follows the last slash. */
  lemma {:induction false} PyBasenameIs(p: string)
    ensures
      var base := PyBasename(p);
      && '/' !in base && |base| <= |p| && p[|p| - |base|..] == base
      && (|base| < |p| ==> p[|p| - |base| - 1] == '/')
  {
    hide PyBasename;
    if p == "" {
      NoBasename();
    } else {
      var rest := PyBasename(p[1..]);
      PyBasenameStep(p);
      PyBasenameIs(p[1..]);
      if p[0] != '/' && '/' !in p[1..] {
        assert forall i | 0 <= i < |p| :: p[i] != '/' by {
          assert forall i | 1 <= i < |p| :: p[i] == p[1..][i - 1];
        }
      } else {
        assert p[1..][|p| - 1 - |rest|..] == p[|p| - |rest|..];
        if |rest| == |p| - 1 {
          assert rest == p[1..];
        }
      }
    }
  }

  lemma NoBasename()
    ensures PyBasename("") == ""
  {
  }

  lemma SlashFreeSuffix(p: string, a: nat, b: nat)
    requires a <= |p| && b <= |p| && forall i | |p| - a <= i < |p| :: p[i] != '/'
    requires b < |p| ==> p[|p| - b - 1] == '/'
    ensures a <= b
  {
  }

  lemma {:induction false} OnePart(s: string, sep: char)
    ensures |Split(s, sep)| == 1 ==> Split(s, sep)[0] == s
    ensures |Split(s, sep)| == 1 <==> sep !in s
  {
    if s != "" {
      OnePart(s[1..], sep);
      assert s == [s[0]] + s[1..];
    }
  }

  lemma {:induction false} StrippedSlashes(p: string)
    ensures StripSlashes(p) <= p && forall i | |StripSlashes(p)| <= i < |p| :: p[i] == '/'
  {
    if p != "" && p[|p| - 1] == '/' {
      StrippedSlashes(p[..|p| - 1]);
    }
  }

  /** Swift's base name of a path that is more than slashes is the last stretch
      without a slash; only slashes follow it. */
  lemma SwiftBasenameIs(p: string)
    requires exists i :: 0 <= i < |p| && p[i] != '/'
    ensures
      var base, end := SwiftBasename(p), |StripSlashes(p)|;
      && base != "" && '/' !in base && |base| <= end <= |p| && p[end - |base|..end] == base
      && (|base| < end ==> p[end - |base| - 1] == '/')
      && (forall i | end <= i < |p| :: p[i] == '/')
  {
    var q := StripSlashes(p);
    StrippedSlashes(p);
    StripSlashesEnd(p);
    PyBasenameIs(q);
    assert q != "";
    SplitLastEmpty(q);
    var base := PyBasename(q);
    assert p[..|q|] == q && p[|q| - |base|..|q|] == q[|q| - |base|..];
  }

  /** The base name of a name in a directory is the name. */
  lemma BasenameOf(dir: string, name: string)
    requires name != "" && '/' !in name
    ensures SwiftBasename(dir + "/" + name) == name && PyBasename(dir + "/" + name) == name
  {
    var p := dir + "/" + name;
    assert p[|p| - 1] == name[|name| - 1] && name[|name| - 1] in name;
    PyBasenameIs(p);
    var base, n := PyBasename(p), |dir| + 1;
    assert p[n - 1] == '/' && p[n..] == name;
    forall i | n <= i < |p| ensures p[i] != '/' {
      assert p[i] == name[i - n] && name[i - n] in name;
    }
    forall i | |p| - |base| <= i < |p| ensures p[i] != '/' {
      assert p[i] == p[|p| - |base|..][i - (|p| - |base|)] && p[i] in base;
    }
    SlashFreeSuffix(p, |name|, |base|);
    SlashFreeSuffix(p, |base|, |name|);
  }

  // ---------------------------------------------------------------- the sanitisers, character by character

  lemma {:induction false} SanitiseConcat(a: string, b: string)
    ensures Sanitise(a + b) == Sanitise(a) + Sanitise(b)
  {
    if a == "" {
      assert a + b == b;
    } else {
      assert (a + b)[0] == a[0] && (a + b)[1..] == a[1..] + b;
      SanitiseConcat(a[1..], b);
    }
  }

  /** At every place of a text: tab and newline become a space, a carriage return
      goes, any other character stays. */
  lemma SanitiseSpells(a: string, c: char, b: string)
    ensures Sanitise("") == ""
    ensures Sanitise(a + [c] + b) ==
      Sanitise(a) + (if c == '\t' || c == '\n' then " " else if c == '\r' then "" else [c]) + Sanitise(b)
  {
    SanitiseConcat(a + [c], b);
    SanitiseConcat(a, [c]);
    assert [c][1..] == "" && Sanitise([c]) == (if c == '\t' || c == '\n' then " " else if c == '\r' then "" else [c]);
  }

  /** At every CR LF pair of a text Swift leaves the pair; without one it does what
      Python does. */
  lemma SwiftSanitiseSpells(a: string, b: string)
    ensures SwiftSanitise(a + "\r\n" + b) == SwiftSanitise(a) + "\r\n" + SwiftSanitise(b)
    ensures !HasCrLf(a) ==> SwiftSanitise(a) == Sanitise(a)
  {
    SwiftSanitiseExact(a);
    SwiftKeepsPair(a, b);
  }

  function SwiftOne(c: char): string
  {
    if c == '\t' || c == '\n' then " " else if c == '\r' then "" else [c]
  }

  lemma SwiftStep(s: string)
    requires s != ""
    ensures SwiftSanitise(s) ==
      if |s| >= 2 && s[0] == '\r' && s[1] == '\n' then "\r\n" + SwiftSanitise(s[2..])
      else SwiftOne(s[0]) + SwiftSanitise(s[1..])
  {
  }

  lemma {:induction false} SwiftKeepsPair(a: string, b: string)
    ensures SwiftSanitise(a + "\r\n" + b) == SwiftSanitise(a) + "\r\n" + SwiftSanitise(b)
    decreases |a|
  {
    hide SwiftSanitise, SwiftOne;
    var s, end := a + "\r\n" + b, "\r\n" + SwiftSanitise(b);
    SwiftStep(s);
    if a == "" {
      NothingSanitised();
      assert s[2..] == b;
    } else {
      SwiftStep(a);
      if |a| >= 2 && a[0] == '\r' && a[1] == '\n' {
        SwiftKeepsPair(a[2..], b);
        assert s[0] == '\r' && s[1] == '\n' && s[2..] == a[2..] + "\r\n" + b;
        assert "\r\n" + (SwiftSanitise(a[2..]) + end) == ("\r\n" + SwiftSanitise(a[2..])) + end;
      } else {
        SwiftKeepsPair(a[1..], b);
        assert s[0] == a[0] && s[1..] == a[1..] + "\r\n" + b;
        assert s[1] == if |a| == 1 then '\r' else a[1];
        assert SwiftOne(a[0]) + (SwiftSanitise(a[1..]) + end) == (SwiftOne(a[0]) + SwiftSanitise(a[1..])) + end;
      }
      assert SwiftSanitise(a) + end == SwiftSanitise(a) + "\r\n" + SwiftSanitise(b);
    }
  }

  lemma NothingSanitised()
    ensures SwiftSanitise("") == ""
  {
  }
}
