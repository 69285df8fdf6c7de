/** The string operations the handler relies on: `str.split` on one
    character and `str.join`, `re.split(r'\s+', ...)` on a byte string, and
    the two-space indentation of a tweet's body. */
module Text {

  /** The characters `\s` matches in a byte-string pattern: space, tab,
      newline, carriage return, vertical tab and form feed. */
  predicate IsSpace(c: char) {
    c == ' ' || c == '\t' || c == '\n' || c == '\r' || c == '\U{0B}' || c == '\U{0C}'
  }

  /** Number of occurrences of `c` in `s`. */
  function Count(s: string, c: char): nat {
    if s == [] then 0 else (if s[0] == c then 1 else 0) + Count(s[1..], c)
  }

  // ---------------------------------------------------------------------
  // str.split(sep) and sep.join(parts) for a one-character separator
  // ---------------------------------------------------------------------

  /** `s.split(sep)`: the pieces between the occurrences of `sep`, empty
      pieces included; there is always one piece more than separators. */
  function SplitOn(s: string, sep: char): (parts: seq<string>)
    ensures |parts| == Count(s, sep) + 1
    ensures forall i :: 0 <= i < |parts| ==> sep !in parts[i]
    decreases |s|
  {
    if s == [] then [""]
    else
      var rest := SplitOn(s[1..], sep);
      if s[0] == sep then [""] + rest
      else [[s[0]] + rest[0]] + rest[1..]
  }

  /** `sep.join(parts)`. */
  function JoinWith(sep: char, parts: seq<string>): string
    decreases |parts|
  {
    if |parts| == 0 then ""
    else if |parts| == 1 then parts[0]
    else parts[0] + [sep] + JoinWith(sep, parts[1..])
  }

  /** Joining the pieces of a split gives back the original string. */
  lemma {:induction false} JoinSplit(s: string, sep: char)
    ensures JoinWith(sep, SplitOn(s, sep)) == s
    decreases |s|
  {
    if s != [] {
      JoinSplit(s[1..], sep);
      var rest := SplitOn(s[1..], sep);
      if s[0] == sep {
        assert SplitOn(s, sep) == [""] + rest;
        assert ([""] + rest)[1..] == rest;
        assert s == [sep] + s[1..];
      } else {
        var parts := SplitOn(s, sep);
        assert parts == [[s[0]] + rest[0]] + rest[1..];
        if |rest| == 1 {
          assert s == [s[0]] + rest[0];
        } else {
          assert parts[1..] == rest[1..];
          assert JoinWith(sep, rest) == rest[0] + [sep] + JoinWith(sep, rest[1..]);
          assert s == [s[0]] + (rest[0] + [sep] + JoinWith(sep, rest[1..]));
        }
      }
    }
  }

  /** A string without the separator splits into itself. */
  lemma {:induction false} SplitOnNoSep(a: string, sep: char)
    requires sep !in a
    ensures SplitOn(a, sep) == [a]
    decreases |a|
  {
    if a != [] {
      SplitOnNoSep(a[1..], sep);
      assert [a[0]] + a[1..] == a;
    }
  }

  /** Splitting `a + sep + t` with `sep` not in `a` peels off `a`. */
  lemma {:induction false} SplitOnAfterPiece(a: string, t: string, sep: char)
    requires sep !in a
    ensures SplitOn(a + [sep] + t, sep) == [a] + SplitOn(t, sep)
    decreases |a|
  {
    var s := a + [sep] + t;
    if a == [] {
      assert s[0] == sep && s[1..] == t;
    } else {
      assert s[0] == a[0] && s[1..] == a[1..] + [sep] + t;
      SplitOnAfterPiece(a[1..], t, sep);
      assert [a[0]] + a[1..] == a;
    }
  }

  /** Splitting a join gives back the pieces, when none holds the separator. */
  lemma {:induction false} SplitJoin(parts: seq<string>, sep: char)
    requires |parts| >= 1
    requires forall i :: 0 <= i < |parts| ==> sep !in parts[i]
    ensures SplitOn(JoinWith(sep, parts), sep) == parts
    decreases |parts|
  {
    if |parts| == 1 {
      SplitOnNoSep(parts[0], sep);
    } else {
      SplitJoin(parts[1..], sep);
      SplitOnAfterPiece(parts[0], JoinWith(sep, parts[1..]), sep);
      assert [parts[0]] + parts[1..] == parts;
    }
  }

  // ---------------------------------------------------------------------
  // Body formatting (tweet_handler.py:58)
  // ---------------------------------------------------------------------

  /** `['  %s' % line for line in lines]`. */
  function IndentLines(lines: seq<string>): seq<string> {
    seq(|lines|, i requires 0 <= i < |lines| => "  " + lines[i])
  }

  /** `'\n'.join('  %s' % line for line in text.split('\n'))`. */
  function FormatBody(text: string): string {
    JoinWith('\n', IndentLines(SplitOn(text, '\n')))
  }

  /** One line with its two-space margin removed, if it has one. */
  function Dedent(line: string): string {
    if |line| >= 2 && line[..2] == "  " then line[2..] else line
  }

  /** The inverse of FormatBody: each line of `body` dedented, rejoined. */
  function UnformatBody(body: string): string {
    var lines := SplitOn(body, '\n');
    JoinWith('\n', seq(|lines|, i requires 0 <= i < |lines| => Dedent(lines[i])))
  }

  /** The lines of the formatted body are the lines of the text, one for one,
      each behind a two-space margin. */
  lemma FormatBodyLines(text: string)
    ensures |SplitOn(FormatBody(text), '\n')| == |SplitOn(text, '\n')|
    ensures forall i :: 0 <= i < |SplitOn(text, '\n')| ==>
              SplitOn(FormatBody(text), '\n')[i] == "  " + SplitOn(text, '\n')[i]
  {
    var indented := IndentLines(SplitOn(text, '\n'));
    forall i | 0 <= i < |indented| ensures '\n' !in indented[i] {
      assert indented[i][..2] + indented[i][2..] == indented[i];
    }
    SplitJoin(indented, '\n');
  }

  /** Formatting neither adds nor removes line breaks. */
  lemma FormatBodyNewlines(text: string)
    ensures Count(FormatBody(text), '\n') == Count(text, '\n')
  {
    FormatBodyLines(text);
  }

  /** Removing the margin from every line and rejoining restores the text. */
  lemma FormatBodyRoundTrip(text: string)
    ensures UnformatBody(FormatBody(text)) == text
  {
    var lines := SplitOn(text, '\n');
    FormatBodyLines(text);
    var out := SplitOn(FormatBody(text), '\n');
    var dedented := seq(|out|, i requires 0 <= i < |out| => Dedent(out[i]));
    assert dedented == lines by {
      forall i | 0 <= i < |out| ensures dedented[i] == lines[i] {
        assert out[i][..2] == "  " && out[i][2..] == lines[i];
      }
    }
    JoinSplit(text, '\n');
  }

  // ---------------------------------------------------------------------
  // re.split(r'\s+', line) (tweet_handler.py:73)
  // ---------------------------------------------------------------------

  /** `w` holds no whitespace character. */
  predicate NoSpace(w: string) {
    forall i :: 0 <= i < |w| ==> !IsSpace(w[i])
  }

  /** `re.split(r'\s+', s)`: the pieces between maximal runs of whitespace.
      A leading run gives an empty first piece and a trailing run an empty
      last piece. The first piece is the prefix before the first whitespace
      character, and there is more than one piece exactly when `s` holds
      whitespace. */
  function SplitWs(s: string): (tokens: seq<string>)
    ensures |tokens| >= 1
    ensures forall i :: 0 <= i < |tokens| ==> NoSpace(tokens[i])
    ensures |tokens[0]| <= |s| && tokens[0] == s[..|tokens[0]|]
    ensures |tokens[0]| < |s| ==> IsSpace(s[|tokens[0]|])
    ensures tokens[0] == "" <==> s == [] || IsSpace(s[0])
    ensures |tokens| == 1 <==> NoSpace(s)
    ensures tokens[|tokens| - 1] == "" <==> s == [] || IsSpace(s[|s| - 1])
    decreases |s|
  {
    if s == [] then [""]
    else
      var rest := SplitWs(s[1..]);
      if !IsSpace(s[0]) then [[s[0]] + rest[0]] + rest[1..]
      else if |s| > 1 && IsSpace(s[1]) then rest
      else [""] + rest
  }

  /** A line without whitespace is a single token. */
  lemma SplitWsNoSpace(s: string)
    requires NoSpace(s)
    ensures SplitWs(s) == [s]
  {
    var tokens := SplitWs(s);
    if |tokens[0]| < |s| {
      assert false;
    }
    assert s[..|s|] == s;
  }

  /** `s` with every maximal run of whitespace replaced by one space: an
      independent statement of what the split keeps. */
  function Collapse(s: string): string
    decreases |s|
  {
    if s == [] then []
    else if IsSpace(s[0]) then
      (if |s| > 1 && IsSpace(s[1]) then Collapse(s[1..]) else [' '] + Collapse(s[1..]))
    else [s[0]] + Collapse(s[1..])
  }

  /** Putting one more piece in front of a join. */
  lemma JoinCons(sep: char, x: string, rest: seq<string>)
    requires |rest| >= 1
    ensures JoinWith(sep, [x] + rest) == x + [sep] + JoinWith(sep, rest)
  {
    assert ([x] + rest)[1..] == rest;
  }

  /** Putting one more character at the front of the first piece of a join. */
  lemma {:induction false} JoinExtendFirst(sep: char, c: char, rest: seq<string>)
    requires |rest| >= 1
    ensures JoinWith(sep, [[c] + rest[0]] + rest[1..]) == [c] + JoinWith(sep, rest)
  {
    var parts := [[c] + rest[0]] + rest[1..];
    if |rest| > 1 {
      assert parts[1..] == rest[1..];
      assert JoinWith(sep, rest) == rest[0] + [sep] + JoinWith(sep, rest[1..]);
      assert JoinWith(sep, parts) == [c] + rest[0] + [sep] + JoinWith(sep, rest[1..]);
    }
  }

  /** Joining the tokens with single spaces gives the line with each
      whitespace run collapsed: the tokens are the line's words, in order,
      and nothing else. */
  lemma {:induction false} SplitWsCollapse(s: string)
    ensures JoinWith(' ', SplitWs(s)) == Collapse(s)
    decreases |s|
  {
    if s != [] {
      SplitWsCollapse(s[1..]);
      var rest := SplitWs(s[1..]);
      if !IsSpace(s[0]) {
        JoinExtendFirst(' ', s[0], rest);
      } else if !(|s| > 1 && IsSpace(s[1])) {
        JoinCons(' ', "", rest);
      }
    }
  }

  /** `re.split(r'\s+', s)` equals splitting the collapsed line on single
      spaces, so it is determined by Collapse. */
  lemma SplitWsAsSplitOn(s: string)
    ensures SplitWs(s) == SplitOn(Collapse(s), ' ')
  {
    var tokens := SplitWs(s);
    forall i | 0 <= i < |tokens| ensures ' ' !in tokens[i] {
      assert NoSpace(tokens[i]);
      assert forall j :: 0 <= j < |tokens[i]| ==> tokens[i][j] != ' ';
    }
    SplitWsCollapse(s);
    SplitJoin(tokens, ' ');
  }
}
