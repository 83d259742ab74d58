/** The line splitter for terminal input: a fixed buffer that is filled at its end and shifted down after every
    line. */
module LineBuffer {
  import opened Octets

  const SIZE: nat := 8191
  const NEWLINE: bv8 := 10

  // ---------- what the splitter is for ----------

  predicate NulFree(s: Bytes) {
    forall i :: 0 <= i < |s| ==> s[i] != 0
  }

  /** The position of the first newline, or the length. */
  function FirstNewline(s: Bytes): (k: nat)
    ensures k <= |s| && (k < |s| ==> s[k] == NEWLINE) && forall i :: 0 <= i < k ==> s[i] != NEWLINE
  {
    if s == [] || s[0] == NEWLINE then 0 else 1 + FirstNewline(s[1..])
  }

  predicate HasLine(s: Bytes) {
    FirstNewline(s) < |s|
  }

  function LinesOf(s: Bytes): seq<Bytes>
    decreases |s|
  {
    if HasLine(s) then [s[..FirstNewline(s)]] + LinesOf(s[FirstNewline(s) + 1..]) else []
  }

  /** What follows the last newline. */
  function RestOf(s: Bytes): Bytes
    decreases |s|
  {
    if HasLine(s) then RestOf(s[FirstNewline(s) + 1..]) else s
  }

  /** Every line handed out plus everything buffered with it fits the buffer. */
  predicate ShiftsFit(s: Bytes)
    decreases |s|
  {
    HasLine(s) ==> |s| + FirstNewline(s) <= SIZE && ShiftsFit(s[FirstNewline(s) + 1..])
  }

  lemma NewlineUnique(s: Bytes, k: nat)
    requires k < |s| && s[k] == NEWLINE && forall i :: 0 <= i < k ==> s[i] != NEWLINE
    ensures FirstNewline(s) == k
  {
  }

  lemma LinesStep(s: Bytes)
    requires HasLine(s)
    ensures FirstNewline(s) < |s| && LinesOf(s) == [s[..FirstNewline(s)]] + LinesOf(s[FirstNewline(s) + 1..])
  {
    hide FirstNewline, RestOf, ShiftsFit;
  }

  lemma RestStep(s: Bytes)
    requires HasLine(s)
    ensures FirstNewline(s) < |s| && RestOf(s) == RestOf(s[FirstNewline(s) + 1..])
  {
    hide FirstNewline, LinesOf, ShiftsFit;
  }

  lemma FitStep(s: Bytes)
    requires HasLine(s)
    ensures ShiftsFit(s) <==> |s| + FirstNewline(s) <= SIZE && ShiftsFit(s[FirstNewline(s) + 1..])
  {
    hide FirstNewline, HasLine, LinesOf, RestOf;
  }

  /** One line further. */
  lemma LineStep(s: Bytes)
    requires HasLine(s)
    ensures var k := FirstNewline(s);
            && LinesOf(s) == [s[..k]] + LinesOf(s[k + 1..]) && RestOf(s) == RestOf(s[k + 1..])
            && (ShiftsFit(s) <==> |s| + k <= SIZE && ShiftsFit(s[k + 1..]))
  {
    hide *;
    LinesStep(s);
    RestStep(s);
    FitStep(s);
  }

  lemma NoLine(s: Bytes)
    requires !HasLine(s)
    ensures LinesOf(s) == [] && RestOf(s) == s && ShiftsFit(s)
  {
  }

  /** After some lines the rest l of s is still to be split. */
  ghost predicate Splits(s: Bytes, lines: seq<Bytes>, l: Bytes) {
    LinesOf(s) == lines + LinesOf(l) && RestOf(s) == RestOf(l)
  }

  lemma SplitsStart(s: Bytes)
    ensures Splits(s, [], s)
  {
    hide LinesOf, RestOf;
  }

  lemma Regroup(s: Bytes, lines: seq<Bytes>, l: Bytes, x: Bytes, rest: Bytes)
    requires Splits(s, lines, l) && LinesOf(l) == [x] + LinesOf(rest) && RestOf(l) == RestOf(rest)
    ensures Splits(s, lines + [x], rest)
  {
    hide LinesOf, RestOf;
    assert lines + ([x] + LinesOf(rest)) == (lines + [x]) + LinesOf(rest);
  }

  lemma SplitsFurther(s: Bytes, lines: seq<Bytes>, l: Bytes)
    requires Splits(s, lines, l) && HasLine(l)
    ensures var k := FirstNewline(l);
            Splits(s, lines + [l[..k]], l[k + 1..]) && (ShiftsFit(l) <==> |l| + k <= SIZE && ShiftsFit(l[k + 1..]))
  {
    hide LinesOf, RestOf, ShiftsFit, FirstNewline, Splits;
    LineStep(l);
    var k := FirstNewline(l);
    Regroup(s, lines, l, l[..k], l[k + 1..]);
  }

  lemma SplitsEnd(s: Bytes, lines: seq<Bytes>, l: Bytes)
    requires Splits(s, lines, l) && !HasLine(l)
    ensures lines == LinesOf(s) && l == RestOf(s) && ShiftsFit(l)
  {
    hide LinesOf, RestOf, HasLine, ShiftsFit;
    NoLine(l);
  }

  lemma FirstLineStays(a: Bytes, b: Bytes)
    requires HasLine(a)
    ensures HasLine(a + b) && FirstNewline(a + b) == FirstNewline(a) < |a|
    ensures (a + b)[FirstNewline(a) + 1..] == a[FirstNewline(a) + 1..] + b
    ensures (a + b)[..FirstNewline(a)] == a[..FirstNewline(a)]
  {
    NewlineUnique(a + b, FirstNewline(a));
  }

  /** Splitting may stop anywhere and go on with the unfinished line in front of what comes next. */
  lemma {:induction false} SplitResumes(a: Bytes, b: Bytes)
    ensures LinesOf(a + b) == LinesOf(a) + LinesOf(RestOf(a) + b)
    ensures RestOf(a + b) == RestOf(RestOf(a) + b)
    decreases |a|
  {
    hide LinesOf, RestOf, FirstNewline, HasLine, ShiftsFit;
    if HasLine(a) {
      var k := FirstNewline(a);
      FirstLineStays(a, b);
      LineStep(a);
      LineStep(a + b);
      SplitResumes(a[k + 1..], b);
    } else {
      NoLine(a);
    }
  }

  function TailOver(pieces: seq<Bytes>): Bytes {
    if pieces == [] then [] else RestOf(TailOver(pieces[..|pieces| - 1]) + pieces[|pieces| - 1])
  }

  /** All lines handed out, and the tail kept, over a sequence of reads that are each split on arrival. */
  function LinesOver(pieces: seq<Bytes>): seq<Bytes> {
    if pieces == [] then [] else
      var init, last := pieces[..|pieces| - 1], pieces[|pieces| - 1];
      LinesOver(init) + LinesOf(TailOver(init) + last)
  }

  /** Where the reads fall makes no difference to the lines. */
  lemma {:induction false} BoundariesDoNotMatter(pieces: seq<Bytes>)
    ensures LinesOver(pieces) == LinesOf(Concat(pieces)) && TailOver(pieces) == RestOf(Concat(pieces))
  {
    if pieces != [] {
      var init, last := pieces[..|pieces| - 1], pieces[|pieces| - 1];
      BoundariesDoNotMatter(init);
      SplitResumes(Concat(init), last);
    }
  }

  // ---------- when the shifting leaves nothing behind ----------

  /** Half a buffer is always safe. */
  lemma {:induction false} HalfFits(s: Bytes)
    requires |s| <= SIZE / 2 + 1
    ensures ShiftsFit(s)
    decreases |s|
  {
    if HasLine(s) { HalfFits(s[FirstNewline(s) + 1..]); }
  }

  lemma NulFreeTail(s: Bytes, k: nat)
    requires NulFree(s) && k <= |s|
    ensures NulFree(s[k..])
  {
  }

  ghost predicate ZeroFrom(b: Bytes, c: nat) {
    forall i :: c <= i < |b| ==> b[i] == 0
  }

  /** What the move leaves behind the new end: nothing exactly if nothing was there and the line and the rest
      of the input did not overlap the part that stays in place. */
  lemma ShiftCleans(b: Bytes, b': Bytes, c: nat, k: nat)
    requires |b| == |b'| == SIZE + 1 && k < c <= SIZE && NulFree(b[..c])
    requires forall i :: 0 <= i < SIZE - k ==> b'[i] == b[i + k + 1]
    requires forall i :: SIZE - k <= i <= SIZE ==> b'[i] == if i == k then 0 else b[i]
    ensures ZeroFrom(b', c - k - 1) <==> ZeroFrom(b, c) && c + k <= SIZE
  {
    if !ZeroFrom(b, c) {
      var j :| c <= j < |b| && b[j] != 0;
      assert b'[j - k - 1] == b[j];
    }
    if c + k > SIZE {
      assert SIZE - k != k;
      assert b'[SIZE - k] == b[SIZE - k] == b[..c][SIZE - k];
    }
    if ZeroFrom(b, c) && c + k <= SIZE {
      forall i | c - k - 1 <= i < |b'| ensures b'[i] == 0 {
        if i < SIZE - k { assert b'[i] == b[i + k + 1]; }
      }
    }
  }

  datatype Outcome =
    | TooLong  // the buffer is full without a newline: the program exits
    | Stale    // bytes of an earlier line follow the input directly
    | Handed   // all complete lines have been handed out

  class UserBuf {
    const buf: array<bv8>
    var cur: nat

    ghost predicate Valid()
      reads this, buf
    {
      buf.Length == SIZE + 1 && cur <= SIZE && buf[SIZE] == 0
    }

    /** The unfinished line. */
    ghost function Live(): Bytes
      requires Valid()
      reads this, buf
    {
      buf[..cur]
    }

    /** Every byte past the unfinished line is zero. */
    ghost predicate Clean()
      requires Valid()
      reads this, buf
    {
      ZeroFrom(buf[..], cur)
    }

    constructor ()
      ensures Valid() && Clean() && Live() == [] && fresh(buf)
    {
      buf := new bv8[SIZE + 1](_ => 0);
      cur := 0;
    }

    /** The first newline before the first zero byte; -1 if there is none. */
    method StrChr() returns (k: int)
      requires Valid() && NulFree(Live()) && buf[cur] == 0
      ensures if HasLine(Live()) then k == FirstNewline(Live()) else k == -1
    {
      k := 0;
      while buf[k] != 0 && buf[k] != NEWLINE
        invariant 0 <= k <= cur && forall i :: 0 <= i < k ==> buf[i] != NEWLINE
        decreases cur - k
      {
        assert k < cur;
        k := k + 1;
      }
      if buf[k] == NEWLINE {
        NewlineUnique(Live(), k);
      } else {
        assert k == cur;
        k := -1;
      }
    }

    /** What follows position k moves to the front. */
    method MoveDown(k: nat)
      requires buf.Length == SIZE + 1 && k < SIZE
      modifies buf
      ensures forall i :: 0 <= i < SIZE - k ==> buf[i] == old(buf[i + k + 1])
      ensures forall i :: SIZE - k <= i <= SIZE ==> buf[i] == old(buf[i])
    {
      forall i | 0 <= i < SIZE - k {
        buf[i] := buf[i + k + 1];
      }
    }

    /** Takes the first line off the buffer. */
    method Shift(k: nat) returns (line: Bytes)
      requires Valid() && NulFree(Live()) && buf[cur] == 0 && HasLine(Live()) && k == FirstNewline(Live())
      modifies this`cur, buf
      ensures Valid() && buf[cur] == 0 && cur < old(cur) && NulFree(Live())
      ensures line == old(Live())[..k] && Live() == old(Live())[k + 1..]
      ensures Clean() <==> old(Clean()) && old(cur) + k <= SIZE
    {
      hide NulFree, FirstNewline, ZeroFrom;
      ghost var s, c, b := Live(), cur, buf[..];
      buf[k] := 0;
      line := buf[..k];
      MoveDown(k);
      cur := cur - (k + 1);
      assert Live() == s[k + 1..];
      NulFreeTail(s, k + 1);
      ShiftCleans(b, buf[..], c, k);
    }

    method Append(data: Bytes)
      requires Valid() && |data| <= SIZE - cur
      modifies this`cur, buf
      ensures Valid() && Live() == old(Live()) + data && cur == old(cur) + |data|
      ensures buf[cur] == old(buf[cur + |data|]) && (old(Clean()) ==> Clean())
    {
      forall i | 0 <= i < |data| {
        buf[cur + i] := data[i];
      }
      cur := cur + |data|;
    }

    method HandOut(ghost s: Bytes) returns (lines: seq<Bytes>)
      requires Valid() && Live() == s && NulFree(s) && buf[cur] == 0
      modifies this`cur, buf
      ensures Valid() && lines == LinesOf(s) && Live() == RestOf(s) && NulFree(RestOf(s))
      ensures Clean() <==> old(Clean()) && ShiftsFit(s)
    {
      hide LinesOf, RestOf, ShiftsFit, HasLine, Clean, NulFree, FirstNewline, Splits;
      lines := [];
      SplitsStart(s);
      var k := StrChr();
      while k >= 0
        invariant Valid() && NulFree(Live()) && buf[cur] == 0
        invariant if HasLine(Live()) then k == FirstNewline(Live()) else k == -1
        invariant Splits(s, lines, Live())
        invariant (old(Clean()) && ShiftsFit(s)) <==> (Clean() && ShiftsFit(Live()))
        decreases cur
      {
        SplitsFurther(s, lines, Live());
        var line := Shift(k);
        lines := lines + [line];
        k := StrChr();
      }
      SplitsEnd(s, lines, Live());
    }

    /** One call: the bytes read are appended, then every complete line is handed out in order. */
    method ProcessUserInput(data: Bytes) returns (r: Outcome, lines: seq<Bytes>)
      requires Valid() && NulFree(Live()) && NulFree(data) && |data| <= SIZE - cur
      modifies this`cur, buf
      ensures Valid()
      ensures r == TooLong <==> old(cur) >= SIZE - 1
      ensures r == Stale <==> old(cur) < SIZE - 1 && old(buf[cur + |data|]) != 0
      ensures r == Handed ==> lines == LinesOf(old(Live()) + data)
      ensures r == Handed ==> Live() == RestOf(old(Live()) + data) && NulFree(Live())
      ensures r == Handed && old(Clean()) ==> (Clean() <==> ShiftsFit(old(Live()) + data))
    {
      lines := [];
      if cur >= SIZE - 1 { return TooLong, lines; }
      ghost var s := Live() + data;
      Append(data);
      if buf[cur] != 0 { return Stale, lines; }
      lines := HandOut(s);
      r := Handed;
    }
  }

  /** A long line and input behind it do not fit together: this read of 8001 bytes fits the buffer, and what is
      left of it after the line is followed by old bytes. */
  lemma LongLineOverlaps() returns (s: Bytes)
    ensures |s| <= SIZE && NulFree(s) && !ShiftsFit(s)
  {
    s := seq(5000, _ => 97) + [NEWLINE] + seq(3000, _ => 97);
    NewlineUnique(s, 5000);
    hide FirstNewline;
    FitStep(s);
  }

  // ---------- whole runs ----------

  /** Each read finds room, does not meet a full buffer, and leaves every shift inside the buffer. */
  ghost predicate RunFits(pieces: seq<Bytes>) {
    forall i :: 0 <= i < |pieces| ==>
      var tail := TailOver(pieces[..i]);
      |tail| < SIZE - 1 && |tail| + |pieces[i]| <= SIZE && ShiftsFit(tail + pieces[i])
  }

  /** Half a buffer at a time is always safe. */
  lemma HalvesFit(pieces: seq<Bytes>)
    requires forall i :: 0 <= i < |pieces| ==> |TailOver(pieces[..i])| + |pieces[i]| <= SIZE / 2
    ensures RunFits(pieces)
  {
    hide TailOver;
    forall i | 0 <= i < |pieces| ensures ShiftsFit(TailOver(pieces[..i]) + pieces[i]) {
      HalfFits(TailOver(pieces[..i]) + pieces[i]);
    }
  }

  /** A run of calls in which every shift fits: the lines handed out over all calls are those of the whole
      stream, and the tail stays buffered with zeros behind it. */
  method Session(pieces: seq<Bytes>) returns (lines: seq<Bytes>, b: UserBuf)
    requires RunFits(pieces) && forall i :: 0 <= i < |pieces| ==> NulFree(pieces[i])
    ensures lines == LinesOf(Concat(pieces))
    ensures b.Valid() && b.Live() == RestOf(Concat(pieces)) && b.Clean()
  {
    hide LinesOf, RestOf, ShiftsFit;
    b := new UserBuf();
    lines := [];
    for i := 0 to |pieces|
      invariant b.Valid() && b.Clean() && NulFree(b.Live()) && fresh(b) && fresh(b.buf)
      invariant lines == LinesOver(pieces[..i]) && b.Live() == TailOver(pieces[..i])
    {
      assert pieces[..i + 1][..i] == pieces[..i];
      var r, more := b.ProcessUserInput(pieces[i]);
      lines := lines + more;
    }
    assert pieces[..|pieces|] == pieces;
    BoundariesDoNotMatter(pieces);
  }
}
