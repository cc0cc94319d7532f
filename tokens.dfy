/** Splitting recognised text into words and joining words back together,
    with the semantics of Python's `str.split(sep)` and `sep.join(pieces)`
    for a one-character separator. */
module Tokens {

  /** `s.split(sep)`: the pieces between separators, empty pieces kept;
      the result is never empty (`"".split(" ") == [""]`). */
  function Split(s: string, sep: char): (pieces: seq<string>)
    ensures |pieces| >= 1
    ensures forall k :: 0 <= k < |pieces| ==> sep !in pieces[k]
    decreases |s|
  {
    if s == [] then [""]
    else
      var rest := Split(s[1..], sep);
      if s[0] == sep then [""] + rest
      else [[s[0]] + rest[0]] + rest[1..]
  }

  /** The total length of the pieces. */
  function Lengths(pieces: seq<string>): nat
  {
    if pieces == [] then 0 else |pieces[0]| + Lengths(pieces[1..])
  }

  /** `sep.join(pieces)`: the pieces in order with `sep` between each two. */
  function Join(pieces: seq<string>, sep: string): (r: string)
    ensures |pieces| == 0 ==> r == ""
    ensures |pieces| == 1 ==> r == pieces[0]
    decreases |pieces|
  {
    if |pieces| == 0 then ""
    else if |pieces| == 1 then pieces[0]
    else pieces[0] + sep + Join(pieces[1..], sep)
  }

  /** A join is as long as its pieces plus one separator per gap, and it
      starts with the first piece. */
  lemma {:induction false} JoinLength(pieces: seq<string>, sep: string)
    requires |pieces| >= 1
    ensures |Join(pieces, sep)| == Lengths(pieces) + |sep| * (|pieces| - 1)
    ensures pieces[0] <= Join(pieces, sep)
    decreases |pieces|
  {
    if |pieces| > 1 {
      JoinLength(pieces[1..], sep);
    }
  }

  lemma JoinCons(p: string, rest: seq<string>, sep: string)
    requires |rest| >= 1
    ensures Join([p] + rest, sep) == p + sep + Join(rest, sep)
  {
    assert ([p] + rest)[1..] == rest;
  }

  lemma JoinExtendHead(c: char, rest: seq<string>, sep: string)
    requires |rest| >= 1
    ensures Join([[c] + rest[0]] + rest[1..], sep) == [c] + Join(rest, sep)
  {
    if |rest| > 1 {
      JoinCons([c] + rest[0], rest[1..], sep);
      JoinCons(rest[0], rest[1..], sep);
      assert rest == [rest[0]] + rest[1..];
    }
  }

  /** Joining the pieces of a split with the same separator gives back the text. */
  lemma {:induction false} JoinSplit(s: string, sep: char)
    ensures Join(Split(s, sep), [sep]) == s
  {
    if s != [] {
      JoinSplit(s[1..], sep);
      var rest := Split(s[1..], sep);
      if s[0] == sep {
        JoinCons("", rest, [sep]);
        assert s == [sep] + s[1..];
      } else {
        JoinExtendHead(s[0], rest, [sep]);
        assert s == [s[0]] + s[1..];
      }
    }
  }

  lemma {:induction false} SplitWithoutSeparator(s: string, sep: char)
    requires sep !in s
    ensures Split(s, sep) == [s]
    decreases |s|
  {
    if s != [] {
      SplitWithoutSeparator(s[1..], sep);
      assert s == [s[0]] + s[1..];
    }
  }

  lemma {:induction false} SplitAfterPiece(p: string, tail: string, sep: char)
    requires sep !in p
    ensures Split(p + [sep] + tail, sep) == [p] + Split(tail, sep)
    decreases |p|
  {
    var s := p + [sep] + tail;
    if p == [] {
      assert s[0] == sep && s[1..] == tail;
    } else {
      SplitAfterPiece(p[1..], tail, sep);
      assert s[0] == p[0] && s[1..] == p[1..] + [sep] + tail;
      assert p == [p[0]] + p[1..];
    }
  }

  /** Splitting a join gives back the pieces, provided none of them contains
      the separator (Python: `sep.join(xs).split(sep) == xs`). */
  lemma {:induction false} SplitJoin(pieces: seq<string>, sep: char)
    requires |pieces| >= 1
    requires forall k :: 0 <= k < |pieces| ==> sep !in pieces[k]
    ensures Split(Join(pieces, [sep]), sep) == pieces
    decreases |pieces|
  {
    if |pieces| == 1 {
      SplitWithoutSeparator(pieces[0], sep);
    } else {
      SplitJoin(pieces[1..], sep);
      SplitAfterPiece(pieces[0], Join(pieces[1..], [sep]), sep);
      assert pieces == [pieces[0]] + pieces[1..];
    }
  }

  /** There is one piece more than there are separators in the text. */
  lemma {:induction false} SplitCount(s: string, sep: char)
    ensures |Split(s, sep)| == multiset(s)[sep] + 1
    decreases |s|
  {
    if s != [] {
      SplitCount(s[1..], sep);
      assert s == [s[0]] + s[1..];
      assert multiset(s) == multiset([s[0]]) + multiset(s[1..]);
    }
  }

  /** What the main loop makes of one recognised utterance. */
  datatype Utterance = Utterance(command: string, options: seq<string>)

  /** `voice_input.split(" ")`: the first piece is the command, the rest are
      the options, in their original order. */
  function Tokenize(recognized: string): (u: Utterance)
    ensures ' ' !in u.command
    ensures forall k :: 0 <= k < |u.options| ==> ' ' !in u.options[k]
    ensures Join([u.command] + u.options, " ") == recognized
    ensures |u.options| == multiset(recognized)[' ']
    ensures recognized == "" ==> u == Utterance("", [])
    ensures ' ' !in recognized ==> u == Utterance(recognized, [])
  {
    var pieces := Split(recognized, ' ');
    JoinSplit(recognized, ' ');
    SplitCount(recognized, ' ');
    assert pieces == [pieces[0]] + pieces[1..];
    Utterance(pieces[0], pieces[1..])
  }

  /** Tokenising is undone by joining, and joining space-free words is undone
      by tokenising: the utterance determines command and options uniquely. */
  lemma TokenizeJoin(command: string, options: seq<string>)
    requires ' ' !in command
    requires forall k :: 0 <= k < |options| ==> ' ' !in options[k]
    ensures Tokenize(Join([command] + options, " ")) == Utterance(command, options)
  {
    var pieces := [command] + options;
    assert forall k :: 0 <= k < |pieces| ==> ' ' !in pieces[k] by {
      forall k | 0 <= k < |pieces| ensures ' ' !in pieces[k] {
        if k > 0 { assert pieces[k] == options[k - 1]; }
      }
    }
    SplitJoin(pieces, ' ');
    assert pieces[1..] == options;
  }
}
