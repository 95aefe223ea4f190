/** String helpers the synchronizer relies on: decimal rendering of numbers,
    splitting process output into lines, and the last component of a path. */
module Text {

  // ---------------------------------------------------------------------------
  // Decimal numbers (string interpolation of Int and Int32 values)
  // ---------------------------------------------------------------------------

  predicate IsDigit(c: char)
  {
    '0' <= c <= '9'
  }

  function DigitChar(d: nat): (c: char)
    requires d < 10
    ensures IsDigit(c)
  {
    ('0' as int + d) as char
  }

  function DigitValue(c: char): (d: nat)
    requires IsDigit(c)
    ensures d < 10
  {
    (c as int - '0' as int) as nat
  }

  /** Decimal rendering without leading zeros. */
  function NatToString(n: nat): (s: string)
    ensures |s| > 0
  {
    if n < 10 then [DigitChar(n)] else NatToString(n / 10) + [DigitChar(n % 10)]
  }

  lemma {:induction false} NatToStringDigits(n: nat)
    ensures AllDigits(NatToString(n))
    ensures NatToString(n)[0] == '0' ==> n == 0
  {
    if n >= 10 {
      NatToStringDigits(n / 10);
    }
  }

  /** The value of a string of decimal digits. */
  function ParseNat(s: string): (n: nat)
    requires AllDigits(s)
  {
    if s == [] then 0 else ParseNat(s[..|s| - 1]) * 10 + DigitValue(s[|s| - 1])
  }

  lemma {:induction false} NatToStringRoundTrip(n: nat)
    ensures AllDigits(NatToString(n)) && ParseNat(NatToString(n)) == n
  {
    var s := NatToString(n);
    NatToStringDigits(n);
    if n < 10 {
      assert s[..0] == [];
    } else {
      assert s[..|s| - 1] == NatToString(n / 10);
      NatToStringDigits(n / 10);
      NatToStringRoundTrip(n / 10);
    }
  }

  /** Decimal rendering of a possibly negative number. */
  function IntToString(i: int): (digits: string)
  {
    if i < 0 then "-" + NatToString(-i) else NatToString(i)
  }

  predicate AllDigits(s: string)
  {
    forall k :: 0 <= k < |s| ==> IsDigit(s[k])
  }

  function ParseInt(s: string): (i: int)
  {
    if |s| > 0 && s[0] == '-' && AllDigits(s[1..]) then -(ParseNat(s[1..]) as int)
    else if AllDigits(s) then ParseNat(s)
    else 0
  }

  /** The exit code shown in the log can be read back verbatim. */
  lemma IntToStringRoundTrip(i: int)
    ensures ParseInt(IntToString(i)) == i
  {
    var s := IntToString(i);
    NatToStringDigits(if i < 0 then -i else i);
    if i < 0 {
      assert s[1..] == NatToString(-i);
      assert s[0] == '-' && AllDigits(s[1..]);
      NatToStringRoundTrip(-i);
    } else {
      assert AllDigits(s) && s[0] != '-';
      NatToStringRoundTrip(i);
    }
  }

  // ---------------------------------------------------------------------------
  // Lines of process output
  // ---------------------------------------------------------------------------

  /** The characters that separate lines: line feed, vertical tab, form feed,
      carriage return, next line, line separator and paragraph separator. */
  predicate IsNewline(c: char)
  {
    '\n' <= c <= '\r' || c == '\U{85}' || c == '\U{2028}' || c == '\U{2029}'
  }

  predicate NewlineFree(line: string)
  {
    forall k :: 0 <= k < |line| ==> !IsNewline(line[k])
  }

  /** The text split at every newline character; two adjacent newlines give an
      empty piece between them, and the empty text gives one empty piece. */
  function SplitNewlines(s: string): (pieces: seq<string>)
    ensures |pieces| >= 1
  {
    if s == [] then [""]
    else
      var init := SplitNewlines(s[..|s| - 1]);
      var c := s[|s| - 1];
      if IsNewline(c) then init + [""]
      else init[..|init| - 1] + [init[|init| - 1] + [c]]
  }

  /** The pieces glued back together with a line feed between neighbours. */
  function Join(pieces: seq<string>): (joined: string)
    requires |pieces| >= 1
  {
    if |pieces| == 1 then pieces[0] else Join(pieces[..|pieces| - 1]) + "\n" + pieces[|pieces| - 1]
  }

  /** The text with every newline character turned into a line feed. */
  function NormalizeNewlines(s: string): (r: string)
    ensures |r| == |s|
  {
    if s == [] then [] else NormalizeNewlines(s[..|s| - 1]) + [if IsNewline(s[|s| - 1]) then '\n' else s[|s| - 1]]
  }

  lemma {:induction false} SplitNewlinesPiecesAreLines(s: string)
    ensures forall i :: 0 <= i < |SplitNewlines(s)| ==> NewlineFree(SplitNewlines(s)[i])
  {
    if s != [] {
      SplitNewlinesPiecesAreLines(s[..|s| - 1]);
    }
  }

  lemma {:induction false} JoinSplit(s: string)
    ensures Join(SplitNewlines(s)) == NormalizeNewlines(s)
  {
    if s != [] {
      var init := SplitNewlines(s[..|s| - 1]);
      JoinSplit(s[..|s| - 1]);
      var c := s[|s| - 1];
      if IsNewline(c) {
        assert (init + [""])[..|init|] == init;
      } else {
        var pieces := SplitNewlines(s);
        assert pieces[..|pieces| - 1] == init[..|init| - 1];
        if |init| > 1 {
          assert Join(init) == Join(init[..|init| - 1]) + "\n" + init[|init| - 1];
        }
      }
    }
  }

  /** Splitting undoes joining lines that hold no newline character. */
  lemma {:induction false} SplitJoin(pieces: seq<string>)
    requires |pieces| >= 1
    requires forall i :: 0 <= i < |pieces| ==> NewlineFree(pieces[i])
    ensures SplitNewlines(Join(pieces)) == pieces
  {
    if |pieces| == 1 {
      SplitLine(pieces[0], [], []);
      assert [] + pieces[0] == Join(pieces);
      assert [pieces[0]] == pieces;
    } else {
      var init := pieces[..|pieces| - 1];
      SplitJoin(init);
      var head := Join(init) + "\n";
      assert head[..|head| - 1] == Join(init);
      assert SplitNewlines(head) == init + [""];
      SplitLine(pieces[|pieces| - 1], head, init);
      assert head + pieces[|pieces| - 1] == Join(pieces);
    }
  }

  /** Appending newline-free characters extends the last piece. */
  lemma {:induction false} SplitLine(line: string, head: string, init: seq<string>)
    requires NewlineFree(line)
    requires SplitNewlines(head) == init + [""]
    ensures SplitNewlines(head + line) == init + [line]
    decreases |line|
  {
    if line == [] {
      assert head + line == head;
    } else {
      var shorter := line[..|line| - 1];
      var c := line[|line| - 1];
      SplitLine(shorter, head, init);
      assert (head + line)[..|head + line| - 1] == head + shorter;
      assert (head + line)[|head + line| - 1] == c && !IsNewline(c);
      assert (init + [shorter])[..|init|] == init;
      assert shorter + [c] == line;
    }
  }

  /** The pieces that are not empty, in order. */
  function NonEmpty(pieces: seq<string>): (r: seq<string>)
    ensures |r| <= |pieces|
  {
    if pieces == [] then []
    else
      var last := pieces[|pieces| - 1];
      NonEmpty(pieces[..|pieces| - 1]) + (if last == "" then [] else [last])
  }

  lemma {:induction false} NonEmptyElements(pieces: seq<string>)
    ensures forall i :: 0 <= i < |NonEmpty(pieces)| ==> NonEmpty(pieces)[i] != "" && NonEmpty(pieces)[i] in pieces
  {
    if pieces != [] {
      var init := pieces[..|pieces| - 1];
      NonEmptyElements(init);
      assert forall x :: x in init ==> x in pieces;
    }
  }

  /** The non-empty lines of one chunk of output. */
  function NonEmptyLines(s: string): (lines: seq<string>)
  {
    NonEmpty(SplitNewlines(s))
  }

  function Concat(pieces: seq<string>): (joined: string)
  {
    if pieces == [] then "" else Concat(pieces[..|pieces| - 1]) + pieces[|pieces| - 1]
  }

  /** The text with its newline characters removed. */
  function RemoveNewlines(s: string): (r: string)
  {
    if s == [] then "" else RemoveNewlines(s[..|s| - 1]) + (if IsNewline(s[|s| - 1]) then "" else [s[|s| - 1]])
  }

  lemma {:induction false} ConcatNonEmpty(pieces: seq<string>)
    ensures Concat(NonEmpty(pieces)) == Concat(pieces)
  {
    if pieces != [] {
      var init := pieces[..|pieces| - 1];
      var last := pieces[|pieces| - 1];
      ConcatNonEmpty(init);
      if last == "" {
        assert NonEmpty(pieces) == NonEmpty(init);
      } else {
        var kept := NonEmpty(init) + [last];
        assert kept[..|kept| - 1] == NonEmpty(init);
      }
    }
  }

  lemma {:induction false} ConcatSplit(s: string)
    ensures Concat(SplitNewlines(s)) == RemoveNewlines(s)
  {
    if s != [] {
      var init := SplitNewlines(s[..|s| - 1]);
      ConcatSplit(s[..|s| - 1]);
      var c := s[|s| - 1];
      var pieces := SplitNewlines(s);
      if IsNewline(c) {
        assert pieces[..|pieces| - 1] == init;
      } else {
        assert pieces[..|pieces| - 1] == init[..|init| - 1];
        if |init| > 1 {
          assert init == init[..|init| - 1] + [init[|init| - 1]];
        }
        assert Concat(init) == Concat(init[..|init| - 1]) + init[|init| - 1];
      }
    }
  }

  /** The stream handlers log exactly the non-empty lines of a chunk: each is
      non-empty and newline-free, and together they are the chunk without its
      newline characters. */
  lemma NonEmptyLinesSpec(s: string)
    ensures forall i :: 0 <= i < |NonEmptyLines(s)| ==> NonEmptyLines(s)[i] != "" && NewlineFree(NonEmptyLines(s)[i])
    ensures Concat(NonEmptyLines(s)) == RemoveNewlines(s)
  {
    SplitNewlinesPiecesAreLines(s);
    NonEmptyElements(SplitNewlines(s));
    ConcatNonEmpty(SplitNewlines(s));
    ConcatSplit(s);
  }

  // ---------------------------------------------------------------------------
  // Path components
  // ---------------------------------------------------------------------------

  predicate EndsWithSlash(s: string)
  {
    |s| > 0 && s[|s| - 1] == '/'
  }

  function TrimTrailingSlashes(p: string): (q: string)
    ensures q <= p && !EndsWithSlash(q)
  {
    if EndsWithSlash(p) then TrimTrailingSlashes(p[..|p| - 1]) else p
  }

  /** The characters after the last '/' (all of them when there is none). */
  function AfterLastSlash(q: string): (r: string)
    ensures '/' !in r
  {
    if q == [] || q[|q| - 1] == '/' then [] else AfterLastSlash(q[..|q| - 1]) + [q[|q| - 1]]
  }

  /** The last component of a file path, ignoring trailing slashes; a path made
      only of slashes has "/" as its last component. */
  function LastPathComponent(p: string): (component: string)
  {
    var q := TrimTrailingSlashes(p);
    if q == [] then (if p == [] then "" else "/") else AfterLastSlash(q)
  }

  lemma {:induction false} AfterLastSlashOfName(dir: string, name: string)
    requires '/' !in name
    ensures AfterLastSlash(dir + "/" + name) == name
    decreases |name|
  {
    if name == [] {
      assert dir + "/" + name == dir + "/";
    } else {
      var shorter := name[..|name| - 1];
      assert (dir + "/" + name)[..|dir + "/" + name| - 1] == dir + "/" + shorter;
      AfterLastSlashOfName(dir, shorter);
    }
  }

  /** The bullet line of a source names the file or directory itself, with or
      without the trailing slash that marks a directory. */
  lemma LastPathComponentOfChild(dir: string, name: string)
    requires name != "" && '/' !in name
    ensures LastPathComponent(dir + "/" + name) == name
    ensures LastPathComponent(dir + "/" + name + "/") == name
  {
    var p := dir + "/" + name;
    assert TrimTrailingSlashes(p + "/") == TrimTrailingSlashes(p) by {
      assert (p + "/")[..|p + "/"| - 1] == p;
    }
    AfterLastSlashOfName(dir, name);
  }
}
