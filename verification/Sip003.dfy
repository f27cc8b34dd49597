/**
 The plugin-option parser of `src/sip003.rs`: four passes over the text (split at `;`, split at the
 first `=`, unescape the key, unescape the value) that agree with one pass of an escape automaton, and
 that invert every escaping of every option list.
 */
module Sip003 {
  import opened Wrappers

  datatype ParseError = EmptyKey

  type Options = map<string, string>

  // ---------------------------------------------------------------- what each pass computes

  /** Puts text in front of the first piece. */
  function Prepend(p: string, pieces: seq<string>): (r: seq<string>)
    requires |pieces| > 0
    ensures |r| == |pieces|
  {
    [p + pieces[0]] + pieces[1..]
  }

  lemma PrependTwice(p: string, q: string, pieces: seq<string>)
    requires |pieces| > 0
    ensures Prepend(p, Prepend(q, pieces)) == Prepend(p + q, pieces)
    ensures Prepend("", pieces) == pieces
  {
    assert p + (q + pieces[0]) == p + q + pieces[0];
    assert "" + pieces[0] == pieces[0];
  }

  lemma Cat(a: string, b: string, c: string)
    ensures (a + b) + c == a + (b + c)
  {
  }

  /** `s` cut at every unescaped `d`; escapes stay as they are. */
  function Split(s: string, d: char): (pieces: seq<string>)
    ensures |pieces| > 0
    decreases |s|
  {
    if s == "" then [""]
    else if s[0] == '\\' then
      if |s| == 1 then [s] else Prepend(s[..2], Split(s[2..], d))
    else if s[0] == d then [""] + Split(s[1..], d)
    else Prepend(s[..1], Split(s[1..], d))
  }

  /** `s` cut at the first unescaped `d`, if there is one. */
  function SplitFirst(s: string, d: char): (string, Option<string>)
    decreases |s|
  {
    if s == "" then ("", None)
    else if s[0] == '\\' then
      if |s| == 1 then (s, None)
      else var (before, after) := SplitFirst(s[2..], d); (s[..2] + before, after)
    else if s[0] == d then ("", Some(s[1..]))
    else var (before, after) := SplitFirst(s[1..], d); (s[..1] + before, after)
  }

  /** `s` with every escape resolved; a backslash at the very end is dropped. */
  function Unescaped(s: string): string
    decreases |s|
  {
    if s == "" then ""
    else if s[0] == '\\' then
      if |s| == 1 then "" else s[1..2] + Unescaped(s[2..])
    else s[..1] + Unescaped(s[1..])
  }

  function KeyOf(piece: string): string {
    Unescaped(SplitFirst(piece, '=').0)
  }

  function ValueOf(piece: string): string {
    match SplitFirst(piece, '=').1
    case None => ""
    case Some(raw) => Unescaped(raw)
  }

  /** The pieces entered one after the other into `m`. */
  function Entered(pieces: seq<string>, m: Options): Result<Options, ParseError>
    decreases |pieces|
  {
    if pieces == [] then Ok(m)
    else if pieces[0] == "" then Entered(pieces[1..], m)
    else if KeyOf(pieces[0]) == "" then Err(EmptyKey)
    else Entered(pieces[1..], m[KeyOf(pieces[0]) := ValueOf(pieces[0])])
  }

  function Parsed(s: string): Result<Options, ParseError> {
    Entered(Split(s, ';'), map[])
  }

  // ---------------------------------------------------------------- the passes, as the code runs them

  lemma PrependHead(p: string, head: string, tail: seq<string>)
    ensures Prepend(p, [head] + tail) == [p + head] + tail
    ensures p + "" == p
  {
    assert ([head] + tail)[1..] == tail;
  }

  /** One character, or one escape, moves from the text still to cut to the piece being read. */
  lemma SplitStep(current: string, rest: string, d: char)
    requires rest != ""
    ensures rest[0] == '\\' && |rest| > 1 ==>
      Prepend(current, Split(rest, d)) == Prepend(current + rest[..2], Split(rest[2..], d))
    ensures rest == "\\" ==> Prepend(current, Split(rest, d)) == Prepend(current + rest, [""])
    ensures rest[0] != '\\' && rest[0] != d ==>
      Prepend(current, Split(rest, d)) == Prepend(current + rest[..1], Split(rest[1..], d))
    ensures rest[0] != '\\' && rest[0] == d ==>
      Prepend(current, Split(rest, d)) == [current] + Split(rest[1..], d)
  {
    if rest[0] == '\\' {
      if |rest| > 1 {
        PrependTwice(current, rest[..2], Split(rest[2..], d));
      } else {
        PrependHead(current + rest, "", []);
        PrependHead(current, rest, []);
      }
    } else if rest[0] != d {
      PrependTwice(current, rest[..1], Split(rest[1..], d));
    } else {
      PrependHead(current, "", Split(rest[1..], d));
    }
  }

  lemma NextPiece(out: seq<string>, current: string, pieces: seq<string>)
    requires |pieces| > 0
    ensures out + ([current] + pieces) == (out + [current]) + Prepend("", pieces)
  {
    PrependTwice("", "", pieces);
  }

  /** Taking two characters one after the other. */
  lemma TakeTwo(s: string)
    requires |s| > 1
    ensures s[1..][1..] == s[2..] && s[..2] == [s[0], s[1]] && s[1..][0] == s[1] && s[1..2] == [s[1]]
  {
  }

  /** `split_unescaped` */
  method SplitUnescaped(s: string, delim: char) returns (out: seq<string>)
    ensures out == Split(s, delim)
  {
    out := [];
    var current := "";
    var chars := s;
    PrependTwice("", "", Split(s, delim));
    assert [] + Split(s, delim) == Split(s, delim);
    while chars != ""
      invariant Split(s, delim) == out + Prepend(current, Split(chars, delim))
      decreases |chars|
    {
      SplitStep(current, chars, delim);
      var c := chars[0];
      if c == '\\' {
        if |chars| > 1 {
          TakeTwo(chars);
          current := current + [c, chars[1]];
          chars := chars[2..];
        } else {
          assert chars == [c];
          current := current + [c];
          chars := "";
        }
      } else if c == delim {
        NextPiece(out, current, Split(chars[1..], delim));
        out := out + [current];
        current := "";
        chars := chars[1..];
      } else {
        assert chars[..1] == [c];
        current := current + [c];
        chars := chars[1..];
      }
    }
    PrependHead(current, "", []);
    out := out + [current];
  }

  /** `split_first_unescaped` */
  method SplitFirstUnescaped(s: string, delim: char) returns (before: string, after: Option<string>)
    ensures (before, after) == SplitFirst(s, delim)
  {
    before := "";
    var chars := s;
    assert "" + SplitFirst(s, delim).0 == SplitFirst(s, delim).0;
    while chars != ""
      invariant SplitFirst(s, delim) == (before + SplitFirst(chars, delim).0, SplitFirst(chars, delim).1)
      decreases |chars|
    {
      var c := chars[0];
      if c == '\\' {
        if |chars| > 1 {
          TakeTwo(chars);
          Cat(before, chars[..2], SplitFirst(chars[2..], delim).0);
          before := before + [c, chars[1]];
          chars := chars[2..];
        } else {
          assert chars == [c] && before + [c] + "" == before + [c];
          before := before + [c];
          chars := "";
        }
      } else if c == delim {
        assert before + "" == before;
        return before, Some(chars[1..]);
      } else {
        assert chars[..1] == [c];
        Cat(before, chars[..1], SplitFirst(chars[1..], delim).0);
        before := before + [c];
        chars := chars[1..];
      }
    }
    assert before + "" == before;
    after := None;
  }

  /** `unescape` */
  method Unescape(s: string) returns (out: string)
    ensures out == Unescaped(s)
  {
    out := "";
    var chars := s;
    assert "" + Unescaped(s) == Unescaped(s);
    while chars != ""
      invariant Unescaped(s) == out + Unescaped(chars)
      decreases |chars|
    {
      var c := chars[0];
      if c == '\\' {
        if |chars| > 1 {
          TakeTwo(chars);
          Cat(out, chars[1..2], Unescaped(chars[2..]));
          out := out + [chars[1]];
          chars := chars[2..];
        } else {
          chars := "";
        }
      } else {
        assert chars[..1] == [c];
        Cat(out, chars[..1], Unescaped(chars[1..]));
        out := out + [c];
        chars := chars[1..];
      }
    }
    assert out + "" == out;
  }

  /** `PluginOptions::parse` */
  method Parse(s: string) returns (r: Result<Options, ParseError>)
    ensures r == Parsed(s)
  {
    var m: Options := map[];
    var pieces := SplitUnescaped(s, ';');
    var i := 0;
    while i < |pieces|
      invariant 0 <= i <= |pieces|
      invariant Parsed(s) == Entered(pieces[i..], m)
    {
      var raw := pieces[i];
      assert pieces[i..][1..] == pieces[i + 1..];
      i := i + 1;
      if raw != "" {
        var rawKey, rawValue := SplitFirstUnescaped(raw, '=');
        var key := Unescape(rawKey);
        if key == "" {
          return Err(EmptyKey);
        }
        var value := "";
        if rawValue.Some? {
          value := Unescape(rawValue.value);
        }
        m := m[key := value];
      }
    }
    r := Ok(m);
  }

  // ---------------------------------------------------------------- one pass

  /** The option being read: its key so far, its value so far once an `=` was seen, whether it has any
      text at all and whether the last character was an escape. */
  datatype Piece = Piece(key: string, value: Option<string>, started: bool, escape: bool)

  const EMPTY_PIECE := Piece("", None, false, false)

  datatype Automaton = Failed | Reading(done: Options, piece: Piece)

  function Take(p: Piece, c: char): Piece {
    match p.value
    case None => Piece(p.key + [c], None, true, false)
    case Some(v) => Piece(p.key, Some(v + [c]), true, false)
  }

  function Commit(a: Automaton): Automaton {
    if a.Failed? || !a.piece.started then a
    else if a.piece.key == "" then Failed
    else Reading(a.done[a.piece.key := a.piece.value.UnwrapOr("")], EMPTY_PIECE)
  }

  function Step(a: Automaton, c: char): Automaton {
    if a.Failed? then a
    else if a.piece.escape then a.(piece := Take(a.piece, c))
    else if c == '\\' then a.(piece := a.piece.(started := true, escape := true))
    else if c == ';' then Commit(a)
    else if c == '=' && a.piece.value.None? then a.(piece := a.piece.(value := Some(""), started := true))
    else a.(piece := Take(a.piece, c))
  }

  function Run(a: Automaton, s: string): Automaton
    decreases |s|
  {
    if s == "" then Commit(a) else Run(Step(a, s[0]), s[1..])
  }

  function OnePass(s: string): Result<Options, ParseError> {
    match Run(Reading(map[], EMPTY_PIECE), s)
    case Failed => Err(EmptyKey)
    case Reading(m, _) => Ok(m)
  }

  /** No escape is left open at the end of `s`. */
  predicate Closed(s: string)
    decreases |s|
  {
    if s == "" then true
    else if s[0] == '\\' then |s| > 1 && Closed(s[2..])
    else Closed(s[1..])
  }

  /** After text without an open escape, the passes go on as if they started afresh. */
  lemma {:induction false} UnescapedAppend(s: string, t: string)
    requires Closed(s)
    ensures Unescaped(s + t) == Unescaped(s) + Unescaped(t)
    ensures Closed(s + t) == Closed(t)
    decreases |s|
  {
    if s == "" {
      assert s + t == t;
    } else if s[0] == '\\' {
      assert (s + t)[2..] == s[2..] + t && (s + t)[1..2] == s[1..2];
      UnescapedAppend(s[2..], t);
      Cat(s[1..2], Unescaped(s[2..]), Unescaped(t));
    } else {
      assert (s + t)[1..] == s[1..] + t && (s + t)[..1] == s[..1];
      UnescapedAppend(s[1..], t);
      Cat(s[..1], Unescaped(s[1..]), Unescaped(t));
    }
  }

  lemma {:induction false} SplitFirstAppend(s: string, t: string, d: char)
    requires Closed(s) && d != '\\'
    ensures var (before, after) := SplitFirst(s, d);
            var (more, rest) := SplitFirst(t, d);
            match after
            case None => before == s && SplitFirst(s + t, d) == (s + more, rest)
            case Some(a) => Closed(a) && SplitFirst(s + t, d) == (before, Some(a + t))
    decreases |s|
  {
    if s == "" {
      assert s + t == t && "" + SplitFirst(t, d).0 == SplitFirst(t, d).0;
    } else if s[0] == d {
      assert (s + t)[1..] == s[1..] + t && Closed(s[1..]);
    } else {
      var n := if s[0] == '\\' then 2 else 1;
      assert (s + t)[n..] == s[n..] + t && (s + t)[..n] == s[..n];
      SplitFirstAppend(s[n..], t, d);
      assert s[..n] + s[n..] == s;
      Cat(s[..n], s[n..], SplitFirst(t, d).0);
    }
  }

  /** What the automaton holds after the text `cur` of a piece. */
  function Progress(cur: string): Piece {
    var (before, after) := SplitFirst(cur, '=');
    Piece(Unescaped(before), match after case None => None case Some(raw) => Some(Unescaped(raw)), cur != "", false)
  }

  /** A plain character of a piece. */
  lemma PlainStep(m: Options, cur: string, c: char)
    requires Closed(cur) && c != '\\' && c != ';'
    ensures Closed(cur + [c])
    ensures Step(Reading(m, Progress(cur)), c) == Reading(m, Progress(cur + [c]))
  {
    assert [c][..1] == [c] && [c][1..] == "" && [c] + "" == [c] && cur + "" == cur;
    SplitFirstAppend(cur, [c], '=');
    UnescapedAppend(cur, [c]);
    if SplitFirst(cur, '=').1.Some? {
      UnescapedAppend(SplitFirst(cur, '=').1.value, [c]);
    }
  }

  /** An escape in a piece. */
  lemma EscapeStep(m: Options, cur: string, c: char)
    requires Closed(cur)
    ensures Closed(cur + ['\\', c])
    ensures Step(Step(Reading(m, Progress(cur)), '\\'), c) == Reading(m, Progress(cur + ['\\', c]))
  {
    var x := ['\\', c];
    assert x[..2] == x && x[2..] == "" && x[1..2] == [c] && x + "" == x && [c] + "" == [c];
    SplitFirstAppend(cur, x, '=');
    UnescapedAppend(cur, x);
    if SplitFirst(cur, '=').1.Some? {
      UnescapedAppend(SplitFirst(cur, '=').1.value, x);
    }
  }

  /** A backslash at the very end adds nothing to the key or the value. */
  lemma DanglingStep(cur: string)
    requires Closed(cur)
    ensures KeyOf(cur + "\\") == KeyOf(cur) && ValueOf(cur + "\\") == ValueOf(cur)
  {
    SplitFirstAppend(cur, "\\", '=');
    UnescapedAppend(cur, "\\");
    if SplitFirst(cur, '=').1.Some? {
      UnescapedAppend(SplitFirst(cur, '=').1.value, "\\");
    }
  }

  function Outcome(a: Automaton): Result<Options, ParseError> {
    match a
    case Failed => Err(EmptyKey)
    case Reading(m, _) => Ok(m)
  }

  lemma {:induction false} FailedStays(s: string)
    ensures Run(Failed, s) == Failed
    decreases |s|
  {
    if s != "" {
      FailedStays(s[1..]);
    }
  }

  /** The automaton in the middle of a piece ends where the four passes end. */
  lemma {:induction false} RunTracksPasses(m: Options, cur: string, s: string)
    requires Closed(cur)
    ensures Outcome(Run(Reading(m, Progress(cur)), s)) == Entered(Prepend(cur, Split(s, ';')), m)
    decreases |s|
  {
    var a := Reading(m, Progress(cur));
    if s == "" {
      PrependHead(cur, "", []);
    } else {
      SplitStep(cur, s, ';');
      if s[0] == '\\' && |s| == 1 {
        DanglingStep(cur);
        PrependHead(cur + s, "", []);
        assert Run(a, s) == Run(Step(a, s[0]), "");
      } else if s[0] == '\\' {
        EscapeStep(m, cur, s[1]);
        assert s[..2] == ['\\', s[1]] && s[1..][1..] == s[2..];
        RunTracksPasses(m, cur + s[..2], s[2..]);
      } else if s[0] == ';' {
        PrependTwice("", "", Split(s[1..], ';'));
        assert ([cur] + Split(s[1..], ';'))[1..] == Split(s[1..], ';');
        if cur == "" {
          RunTracksPasses(m, "", s[1..]);
        } else if KeyOf(cur) == "" {
          FailedStays(s[1..]);
        } else {
          RunTracksPasses(m[KeyOf(cur) := ValueOf(cur)], "", s[1..]);
        }
      } else {
        PlainStep(m, cur, s[0]);
        assert s[..1] == [s[0]];
        RunTracksPasses(m, cur + s[..1], s[1..]);
      }
    }
  }

  /** On every text the four passes answer as one pass of the automaton does. */
  lemma OnePassAgrees(s: string)
    ensures OnePass(s) == Parsed(s)
  {
    PrependTwice("", "", Split(s, ';'));
    RunTracksPasses(map[], "", s);
  }

  // ---------------------------------------------------------------- what the outcome is

  /** The value the last piece with key `k` gives it. */
  function LastValue(pieces: seq<string>, k: string): Option<string>
    decreases |pieces|
  {
    if pieces == [] then None
    else
      var last := pieces[|pieces| - 1];
      if last != "" && KeyOf(last) == k then Some(ValueOf(last))
      else LastValue(pieces[..|pieces| - 1], k)
  }

  predicate AllKeyed(pieces: seq<string>) {
    forall p :: p in pieces && p != "" ==> KeyOf(p) != ""
  }

  function Get(m: Options, k: string): Option<string> {
    if k in m then Some(m[k]) else None
  }

  lemma {:induction false} LastValueCons(head: string, pieces: seq<string>, k: string)
    ensures LastValue([head] + pieces, k) ==
            if LastValue(pieces, k).Some? then LastValue(pieces, k)
            else if head != "" && KeyOf(head) == k then Some(ValueOf(head)) else None
    decreases |pieces|
  {
    var all := [head] + pieces;
    if pieces == [] {
      assert all == [head] && all[..0] == [];
    } else {
      var n := |pieces| - 1;
      assert all[..|all| - 1] == [head] + pieces[..n];
      LastValueCons(head, pieces[..n], k);
    }
  }

  /** The text is refused exactly when some non-empty piece has an empty key; otherwise every key has the
      value of its last piece, and only keys of pieces are there. */
  lemma {:induction false} EnteredExactly(pieces: seq<string>, m: Options, k: string)
    ensures Entered(pieces, m).Ok? <==> AllKeyed(pieces)
    ensures Entered(pieces, m).Ok? ==>
      Get(Entered(pieces, m).value, k) == if LastValue(pieces, k).Some? then LastValue(pieces, k) else Get(m, k)
    decreases |pieces|
  {
    if pieces != [] {
      assert pieces == [pieces[0]] + pieces[1..];
      LastValueCons(pieces[0], pieces[1..], k);
      var m' := if pieces[0] == "" then m else m[KeyOf(pieces[0]) := ValueOf(pieces[0])];
      EnteredExactly(pieces[1..], m', k);
    }
  }

  lemma LastDuplicateWins(s: string, k: string)
    ensures Parsed(s).Ok? <==> AllKeyed(Split(s, ';'))
    ensures Parsed(s).Ok? ==> Get(Parsed(s).value, k) == LastValue(Split(s, ';'), k)
  {
    EnteredExactly(Split(s, ';'), map[], k);
  }

  // ---------------------------------------------------------------- splitting and joining

  function Join(pieces: seq<string>): string {
    if pieces == [] then ""
    else if |pieces| == 1 then pieces[0]
    else pieces[0] + ";" + Join(pieces[1..])
  }

  /** A piece as the splitter leaves it: no unescaped `;`. */
  predicate OnePiece(p: string) {
    Split(p, ';') == [p]
  }

  /** What `split_unescaped` can return: pieces without unescaped `;`, all but the last without an open escape. */
  predicate Splittable(pieces: seq<string>) {
    |pieces| > 0 && (forall p :: p in pieces ==> OnePiece(p)) &&
    forall i :: 0 <= i < |pieces| - 1 ==> Closed(pieces[i])
  }

  lemma {:induction false} SplitAfter(p: string, t: string)
    requires Closed(p) && OnePiece(p)
    ensures Split(p + t, ';') == Prepend(p, Split(t, ';'))
    decreases |p|
  {
    if p == "" {
      assert p + t == t;
      PrependTwice("", "", Split(t, ';'));
    } else {
      var n := if p[0] == '\\' then 2 else 1;
      assert (p + t)[n..] == p[n..] + t && (p + t)[..n] == p[..n];
      var q := Split(p[n..], ';');
      assert p[0] != ';' && [p] == Prepend(p[..n], q);
      assert |q| == 1 && p == Prepend(p[..n], q)[0] == p[..n] + q[0];
      assert q[0] == (p[..n] + q[0])[n..] == p[n..];
      assert q == [p[n..]];
      assert p[..n] + p[n..] == p;
      SplitAfter(p[n..], t);
      PrependTwice(p[..n], p[n..], Split(t, ';'));
    }
  }

  lemma DelimiterSplits(p: string, rest: string)
    requires Closed(p) && OnePiece(p)
    ensures Split(p + ";" + rest, ';') == [p] + Split(rest, ';')
  {
    var t := ";" + rest;
    assert p + ";" + rest == p + t && t[1..] == rest;
    SplitAfter(p, t);
    PrependHead(p, "", Split(rest, ';'));
  }

  /** Splitting undoes joining. */
  lemma {:induction false} SplitOfJoin(pieces: seq<string>)
    requires Splittable(pieces)
    ensures Split(Join(pieces), ';') == pieces
  {
    if |pieces| > 1 {
      var p, rest := pieces[0], pieces[1..];
      assert p in pieces && pieces == [p] + rest;
      SplitOfJoin(rest);
      DelimiterSplits(p, Join(rest));
    } else {
      assert pieces == [pieces[0]] && pieces[0] in pieces;
    }
  }

  lemma {:induction false} JoinPrepend(p: string, pieces: seq<string>)
    requires |pieces| > 0
    ensures Join(Prepend(p, pieces)) == p + Join(pieces)
  {
    var r := Prepend(p, pieces);
    if |pieces| > 1 {
      assert r[1..] == pieces[1..];
      assert p + pieces[0] + ";" + Join(pieces[1..]) == p + (pieces[0] + ";" + Join(pieces[1..]));
    }
  }

  /** Joining undoes splitting, and what splitting returns is splittable: nothing of the text is lost, and
      the pieces are the only ones it could return. */
  lemma {:induction false} JoinOfSplit(s: string)
    ensures Join(Split(s, ';')) == s && Splittable(Split(s, ';'))
    decreases |s|
  {
    if s == "" || s == "\\" {
      assert OnePiece(s);
    } else if s[0] == ';' {
      var rest := Split(s[1..], ';');
      JoinOfSplit(s[1..]);
      assert ([""] + rest)[1..] == rest && "" + ";" + s[1..] == s;
      assert OnePiece("") && Closed("");
    } else {
      var n := if s[0] == '\\' then 2 else 1;
      var rest := Split(s[n..], ';');
      JoinOfSplit(s[n..]);
      JoinPrepend(s[..n], rest);
      assert s[..n] + s[n..] == s;
      SplittablePrepend(s[..n], rest);
    }
  }

  lemma SplittablePrepend(p: string, pieces: seq<string>)
    requires Splittable(pieces)
    requires (|p| == 1 && p[0] != '\\' && p[0] != ';') || (|p| == 2 && p[0] == '\\')
    ensures Splittable(Prepend(p, pieces))
  {
    var r := Prepend(p, pieces);
    var head := pieces[0];
    assert head in pieces && OnePiece(head);
    assert (p + head)[|p|..] == head && (p + head)[..|p|] == p;
    PrependHead(p, head, []);
    assert OnePiece(p + head);
    forall q | q in r ensures OnePiece(q) {
      if q != r[0] {
        assert q in pieces[1..];
      }
    }
    assert |pieces| > 1 ==> Closed(p + head);
  }

  // ---------------------------------------------------------------- the round trip

  /** `x` with a backslash before every character of `special`. */
  function Escape(x: string, special: set<char>): string {
    if x == "" then ""
    else (if x[0] in special then ['\\', x[0]] else [x[0]]) + Escape(x[1..], special)
  }

  /** One entry of an option text: nothing at all, a bare key, or a key and a value. */
  datatype Item = Blank | Flag(key: string) | Pair(key: string, value: string)

  /** Which characters a writer escapes: at least the ones the parser would take as its own in that place;
      an `=` in a value need not be. */
  datatype Style = Style(inKey: set<char>, inValue: set<char>) {
    predicate Sound() {
      {'\\', ';', '='} <= inKey && {'\\', ';'} <= inValue
    }
  }

  function Written(item: Item, style: Style): string {
    match item
    case Blank => ""
    case Flag(k) => Escape(k, style.inKey)
    case Pair(k, v) => Escape(k, style.inKey) + "=" + Escape(v, style.inValue)
  }

  function AllWritten(items: seq<Item>, style: Style): (pieces: seq<string>)
    ensures |pieces| == |items|
  {
    if items == [] then [] else [Written(items[0], style)] + AllWritten(items[1..], style)
  }

  /** The options the items stand for: a later one replaces an earlier one with its key. */
  function Meaning(items: seq<Item>, m: Options): Options
    decreases |items|
  {
    if items == [] then m
    else match items[0]
      case Blank => Meaning(items[1..], m)
      case Flag(k) => Meaning(items[1..], m[k := ""])
      case Pair(k, v) => Meaning(items[1..], m[k := v])
  }

  lemma {:induction false} EscapeIsClean(x: string, special: set<char>)
    requires '\\' in special
    ensures Closed(Escape(x, special)) && Unescaped(Escape(x, special)) == x
    ensures ';' in special ==> OnePiece(Escape(x, special))
    ensures '=' in special ==> SplitFirst(Escape(x, special), '=') == (Escape(x, special), None)
  {
    if x == "" {
    } else {
      var e := Escape(x, special);
      var n := if x[0] in special then 2 else 1;
      assert e[n..] == Escape(x[1..], special) && e[..n] + e[n..] == e;
      assert n == 2 ==> e[1..2] == [x[0]];
      assert [x[0]] + x[1..] == x;
      EscapeIsClean(x[1..], special);
      PrependHead(e[..n], e[n..], []);
    }
  }

  /** An escaped key, `=` and an escaped value make one piece. */
  lemma PairIsOnePiece(ek: string, ev: string)
    requires Closed(ek) && OnePiece(ek) && Closed(ev) && OnePiece(ev)
    ensures OnePiece(ek + "=" + ev) && Closed(ek + "=" + ev)
  {
    var t := "=" + ev;
    assert t[1..] == ev && t[..1] == "=" && ek + "=" + ev == ek + t;
    UnescapedAppend(ek, t);
    SplitAfter(ek, t);
    PrependHead("=", ev, []);
    PrependHead(ek, t, []);
  }

  lemma PairReadsBack(ek: string, ev: string)
    requires Closed(ek) && SplitFirst(ek, '=') == (ek, None)
    ensures KeyOf(ek + "=" + ev) == Unescaped(ek) && ValueOf(ek + "=" + ev) == Unescaped(ev)
  {
    var t := "=" + ev;
    assert t[1..] == ev && ek + "=" + ev == ek + t && ek + "" == ek;
    SplitFirstAppend(ek, t, '=');
  }

  lemma WrittenReadsBack(item: Item, style: Style)
    requires style.Sound() && !item.Blank?
    ensures var w := Written(item, style);
            OnePiece(w) && Closed(w) && KeyOf(w) == item.key &&
            ValueOf(w) == (if item.Pair? then item.value else "") && (w == "" ==> item.key == "")
  {
    assert ';' in style.inKey && '=' in style.inKey && '\\' in style.inKey;
    EscapeIsClean(item.key, style.inKey);
    if item.Pair? {
      assert ';' in style.inValue && '\\' in style.inValue;
      EscapeIsClean(item.value, style.inValue);
      var ek, ev := Escape(item.key, style.inKey), Escape(item.value, style.inValue);
      PairIsOnePiece(ek, ev);
      PairReadsBack(ek, ev);
    }
  }

  lemma {:induction false} WrittenEnters(items: seq<Item>, style: Style, m: Options)
    requires style.Sound() && forall i :: 0 <= i < |items| && !items[i].Blank? ==> items[i].key != ""
    ensures Entered(AllWritten(items, style), m) == Ok(Meaning(items, m))
    ensures forall p :: p in AllWritten(items, style) ==> OnePiece(p) && Closed(p)
    decreases |items|
  {
    if items != [] {
      var pieces := AllWritten(items, style);
      assert pieces[1..] == AllWritten(items[1..], style);
      var m' := match items[0]
        case Blank => m
        case Flag(k) => m[k := ""]
        case Pair(k, v) => m[k := v];
      if !items[0].Blank? {
        WrittenReadsBack(items[0], style);
      }
      WrittenEnters(items[1..], style, m');
    }
  }

  /** Every list of options with non-empty keys, blanks included, is read back from its text as the map it
      stands for, however generously it was escaped. */
  lemma RoundTrip(items: seq<Item>, style: Style)
    requires style.Sound() && forall i :: 0 <= i < |items| && !items[i].Blank? ==> items[i].key != ""
    ensures Parsed(Join(AllWritten(items, style))) == Ok(Meaning(items, map[]))
  {
    WrittenEnters(items, style, map[]);
    if items != [] {
      SplitOfJoin(AllWritten(items, style));
    }
  }

  /** The items list the map: each states one of its entries, and every key is stated. */
  ghost predicate Lists(items: seq<Item>, m: Options) {
    (forall i :: 0 <= i < |items| ==> items[i].Pair? && items[i].key in m && m[items[i].key] == items[i].value) &&
    forall k :: k in m ==> exists i :: 0 <= i < |items| && items[i].Pair? && items[i].key == k
  }

  lemma {:induction false} ListingMeans(items: seq<Item>, sofar: Options, m: Options)
    requires forall i :: 0 <= i < |items| ==> items[i].Pair? && items[i].key in m && m[items[i].key] == items[i].value
    requires forall k :: k in sofar ==> k in m && m[k] == sofar[k]
    requires forall k :: k in m ==> k in sofar || exists i :: 0 <= i < |items| && items[i].key == k
    ensures Meaning(items, sofar) == m
    decreases |items|
  {
    if items == [] {
      assert sofar == m;
    } else {
      var next := sofar[items[0].key := items[0].value];
      forall k | k in m && k !in next ensures exists i :: 0 <= i < |items[1..]| && items[1..][i].key == k {
        var i :| 0 <= i < |items| && items[i].key == k;
        assert items[1..][i - 1].key == k;
      }
      ListingMeans(items[1..], next, m);
    }
  }

  /** Every finite map with non-empty keys is read back from its text, in whatever order it was written. */
  lemma MapRoundTrip(m: Options, items: seq<Item>, style: Style)
    requires "" !in m && Lists(items, m) && style.Sound()
    ensures Parsed(Join(AllWritten(items, style))) == Ok(m)
  {
    RoundTrip(items, style);
    forall k | k in m ensures exists i :: 0 <= i < |items| && items[i].key == k {
      var i :| 0 <= i < |items| && items[i].Pair? && items[i].key == k;
    }
    ListingMeans(items, map[], m);
  }
}
