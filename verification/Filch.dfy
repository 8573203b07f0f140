/**
 A queue of log lines kept in two alternating files: one is written while the
 other is read out through a line scanner with a bounded buffer.
 File operations succeed.
 */
module Filch {
  import opened Common

  const NEWLINE: Byte := 10

  /** bufio's default longest token and first buffer size. */
  const MAX_TOKEN := 65536
  const START_BUF := 4096

  // ---------------------------------------------------------------------
  // Lines
  // ---------------------------------------------------------------------

  /** The first newline, or -1. */
  function IndexNewline(s: seq<Byte>): (r: int)
    ensures -1 <= r < |s|
    ensures r >= 0 ==> s[r] == NEWLINE && NEWLINE !in s[..r]
    ensures r < 0 ==> NEWLINE !in s
  {
    if s == [] then -1
    else if s[0] == NEWLINE then 0
    else
      var r := IndexNewline(s[1..]);
      assert s == [s[0]] + s[1..];
      assert r >= 0 ==> s[..r + 1] == [s[0]] + s[1..][..r];
      if r < 0 then -1 else r + 1
  }

  lemma IndexNewlineIs(s: seq<Byte>, i: nat)
    requires i < |s| && s[i] == NEWLINE && NEWLINE !in s[..i]
    ensures IndexNewline(s) == i
  {
  }

  /** More data after a newline does not change where the line ends. */
  lemma IndexNewlineExtends(s: seq<Byte>, t: seq<Byte>)
    ensures IndexNewline(s) >= 0 ==> IndexNewline(s + t) == IndexNewline(s)
    ensures IndexNewline(s) < 0 && IndexNewline(s + t) >= 0 ==> IndexNewline(s + t) >= |s|
  {
    var i := IndexNewline(s);
    if i >= 0 {
      assert (s + t)[..i] == s[..i];
      IndexNewlineIs(s + t, i);
    } else if 0 <= IndexNewline(s + t) < |s| {
      assert (s + t)[IndexNewline(s + t)] in s;
    }
  }

  /** How much to consume, and the token, if the data holds one. */
  function SplitLines(data: seq<Byte>, atEOF: bool): (r: (nat, Option<seq<Byte>>))
    ensures r.0 <= |data|
    ensures r.1 == Some(data[..r.0]) || (r.1 == None && r.0 == 0)
  {
    if atEOF && |data| == 0 then (0, None)
    else
      var i := IndexNewline(data);
      if i >= 0 then (i + 1, Some(data[..i + 1]))
      else if atEOF then (|data|, Some(data[..|data|]))
      else (0, None)
  }

  /** A token ends at the first newline, or with the file; there is none exactly if the data has neither. */
  lemma SplitLinesExactly(data: seq<Byte>, atEOF: bool)
    ensures var (n, token) := SplitLines(data, atEOF);
            && (token.Some? ==> n > 0 && NEWLINE !in data[..n - 1] && (data[n - 1] == NEWLINE || (atEOF && n == |data|)))
            && (token.None? <==> NEWLINE !in data && (atEOF ==> data == []))
  {
    var i := IndexNewline(data);
    if i >= 0 { assert data[i] in data; } else if data != [] { assert data[..|data| - 1] <= data; }
  }

  datatype Token = Line(bytes: seq<Byte>) | End | TooLong

  /**
   The first line of what is left of a file: a line with its newline, or the
   rest of the file if it has none. A line that does not end within the longest
   token is too long; a rest of exactly that length is, too.
   */
  function NextToken(rest: seq<Byte>): Token {
    var i := IndexNewline(rest);
    if rest == [] then End
    else if i >= 0 then (if i < MAX_TOKEN then Line(rest[..i + 1]) else TooLong)
    else if |rest| < MAX_TOKEN then Line(rest)
    else TooLong
  }

  /** A full buffer without a newline means that the line is too long. */
  lemma LongerThanBuffer(held: seq<Byte>, rest: seq<Byte>)
    requires held <= rest && |held| == MAX_TOKEN && NEWLINE !in held
    ensures NextToken(rest).TooLong?
  {
    IndexNewlineExtends(held, rest[|held|..]);
    assert held + rest[|held|..] == rest;
  }

  // ---------------------------------------------------------------------
  // Files and the scanner
  // ---------------------------------------------------------------------

  /** A file's contents after data was written at a position; a gap reads as zeros. */
  function Overwritten(contents: seq<Byte>, offset: nat, data: seq<Byte>): seq<Byte> {
    var zeros: seq<Byte> := if offset > |contents| then seq(offset - |contents|, _ => 0) else [];
    var padded := contents + zeros;
    padded[..offset] + data + if offset + |data| < |padded| then padded[offset + |data|..] else []
  }

  /** At the end of a file, writing appends. */
  lemma WritesAtEndAppend(contents: seq<Byte>, data: seq<Byte>)
    ensures Overwritten(contents, |contents|, data) == contents + data
  {
    assert contents + [] == contents;
  }

  /** An open file with its position. */
  class OsFile {
    var contents: seq<Byte>
    var offset: nat

    method Write(data: seq<Byte>)
      modifies this
      ensures contents == Overwritten(old(contents), old(offset), data) && offset == old(offset) + |data|
    {
      var zeros: seq<Byte> := if offset > |contents| then seq(offset - |contents|, _ => 0) else [];
      var padded := contents + zeros;
      var end := offset + |data|;
      contents := padded[..offset] + data + if end < |padded| then padded[end..] else [];
      offset := end;
    }

    /** Some of the bytes at the position, none only at the end of the file. */
    method Read(max: nat) returns (data: seq<Byte>)
      requires max > 0
      modifies this`offset
      ensures |data| <= max
      ensures offset == old(offset) + |data|
      ensures data == [] <==> old(offset) >= |contents|
      ensures data != [] ==> offset <= |contents| && data == contents[old(offset)..offset]
    {
      if offset >= |contents| { return []; }
      var left := |contents| - offset;
      var n :| 1 <= n <= max && n <= left;
      data := contents[offset..offset + n];
      offset := offset + n;
    }

    method SeekStart()
      modifies this`offset
      ensures offset == 0
    {
      offset := 0;
    }

    /** Leaves the position where it is. */
    method Truncate()
      modifies this`contents
      ensures contents == []
    {
      contents := [];
    }
  }

  /** bufio.Scanner splitting at newlines: buf[start..end] is `pending`, and the buffer has `size` bytes. */
  class Scanner {
    const file: OsFile
    var pending: seq<Byte>
    var start: nat
    var size: nat
    var atEOF: bool

    constructor (file: OsFile)
      ensures this.file == file && pending == [] && start == 0 && size == 0 && !atEOF
    {
      this.file := file;
      pending, start, size, atEOF := [], 0, 0, false;
    }

    ghost predicate Valid()
      reads this, file
    {
      && file.offset <= |file.contents|
      && start + |pending| <= size <= MAX_TOKEN
      && (atEOF ==> file.offset == |file.contents| && |pending| < MAX_TOKEN)
    }

    /** What is left to scan. */
    ghost function Rest(): seq<Byte>
      requires Valid()
      reads this, file
    {
      pending + file.contents[file.offset..]
    }

    /** Makes room, up to the longest token, and reads some more; reports a buffer that cannot grow. */
    method Fill() returns (full: bool)
      requires Valid() && !atEOF
      modifies this, file`offset
      ensures Valid() && Rest() == old(Rest())
      ensures full ==> |pending| == MAX_TOKEN && pending == old(pending)
      ensures !full && !atEOF ==> file.offset > old(file.offset)
      ensures !full && atEOF ==> file.offset == old(file.offset)
    {
      if start > 0 && (start + |pending| == size || start > size / 2) {
        start := 0;
      }
      if start + |pending| == size {
        if size >= MAX_TOKEN { return true; }
        size := if size == 0 then START_BUF else if 2 * size > MAX_TOKEN then MAX_TOKEN else 2 * size;
      }
      var data := file.Read(size - start - |pending|);
      if data == [] {
        atEOF := true;
      } else {
        assert file.contents[old(file.offset)..] == data + file.contents[file.offset..];
        pending := pending + data;
      }
      full := false;
    }

    /** Takes a token out of the buffer, if it holds one. */
    method TakeToken() returns (token: Option<seq<Byte>>)
      requires Valid()
      modifies this
      ensures Valid() && atEOF == old(atEOF)
      ensures token.Some? ==> NextToken(old(Rest())) == Line(token.value) && Rest() == old(Rest())[|token.value|..]
      ensures token.None? ==> pending == old(pending) && NEWLINE !in pending && (atEOF ==> pending == [])
    {
      if |pending| == 0 && !atEOF { return None; }
      var r := SplitLines(pending, atEOF);
      SplitLinesExactly(pending, atEOF);
      token := r.1;
      if token.Some? {
        TokenInBuffer();
        ghost var whole := Rest();
        pending, start := pending[r.0..], start + r.0;
        assert Rest() == whole[r.0..];
      }
    }

    /** Reads on until the buffer holds a token: the next line, however the reads happen to be cut. */
    method Scan() returns (t: Token)
      requires Valid()
      modifies this, file`offset
      ensures Valid()
      ensures t == NextToken(old(Rest()))
      ensures t.Line? ==> Rest() == old(Rest())[|t.bytes|..]
    {
      ghost var rest := Rest();
      while true
        invariant Valid() && Rest() == rest
        decreases |file.contents| - file.offset, !atEOF
      {
        var token := TakeToken();
        if token.Some? { return Line(token.value); }
        if atEOF {
          assert rest == [];
          start, pending := 0, [];
          return End;
        }
        ghost var held := pending;
        var full := Fill();
        if full {
          LongerThanBuffer(held, rest);
          return TooLong;
        }
      }
    }

    /** A token found in the buffer is the token of all that is left. */
    lemma TokenInBuffer()
      requires Valid() && (|pending| > 0 || atEOF)
      requires SplitLines(pending, atEOF).1.Some?
      ensures NextToken(Rest()) == Line(SplitLines(pending, atEOF).1.value)
    {
      var tail := file.contents[file.offset..];
      IndexNewlineExtends(pending, tail);
      var i := IndexNewline(pending);
      if i >= 0 {
        assert (pending + tail)[..i + 1] == pending[..i + 1];
      } else {
        assert pending + tail == pending;
      }
    }
  }

  // ---------------------------------------------------------------------
  // The queue
  // ---------------------------------------------------------------------

  /** What the file being written holds, what is left of the file being read, and whether one is being read. */
  datatype State = State(cur: seq<Byte>, alt: seq<Byte>, scanning: bool)

  function Terminated(b: seq<Byte>): seq<Byte> {
    if |b| == 0 || b[|b| - 1] != NEWLINE then b + [NEWLINE] else b
  }

  /** What is written is the bytes as given, and a newline unless they end in one. */
  lemma TerminatedIs(b: seq<Byte>)
    ensures b <= Terminated(b) && |Terminated(b)| <= |b| + 1
    ensures Terminated(b) != [] && Terminated(b)[|Terminated(b)| - 1] == NEWLINE
    ensures Terminated(b) == b <==> b != [] && b[|b| - 1] == NEWLINE
  {
  }

  /** What is read out at the start of what two files of an earlier process held. */
  function Recovered(older: seq<Byte>, newer: seq<Byte>): seq<Byte> {
    if newer == [] then older else Overwritten(older, 0, newer)
  }

  /**
   Of two non-empty files, the newer is recovered whole, and of the older only
   what lies past the newer's length: some of it is always lost.
   */
  lemma RecoveryLoses(older: seq<Byte>, newer: seq<Byte>)
    ensures Recovered(older, newer) == newer + if |newer| < |older| then older[|newer|..] else []
    ensures |Recovered(older, newer)| == |older| + |newer| <==> older == [] || newer == []
  {
    if newer != [] {
      assert older + [] == older && older[..0] == [];
    }
  }

  function Append(s: State, b: seq<Byte>): State { s.(cur := s.cur + Terminated(b)) }

  /** One scan: a line, or else the file is emptied and its scanner dropped. */
  function ScanAlt(s: State): (State, Token) {
    var t := NextToken(s.alt);
    if t.Line? then (State(s.cur, s.alt[|t.bytes|..], true), t) else (State(s.cur, [], false), t)
  }

  /** A line, the end of all there is, or a failure. */
  function ReadLine(s: State): (State, Token) {
    var (s1, t) := ScanAlt(s);
    if s.scanning && !t.End? then (s1, t) else ScanAlt(State([], s.cur, true))
  }

  class Filch {
    var cur: OsFile
    var alt: OsFile
    var altscan: Scanner?
    var recovered: nat

    /** The state is as between calls: the file being written is at its end, the other is being scanned or is empty. */
    ghost predicate Valid()
      reads this, cur, alt, altscan
    {
      && cur != alt
      && cur.offset == |cur.contents|
      && (altscan == null ==> alt.contents == [] && alt.offset == 0)
      && (altscan != null ==> altscan.file == alt && altscan.Valid())
    }

    ghost function Model(): State
      requires Valid()
      reads this, cur, alt, altscan
    {
      State(cur.contents, if altscan == null then [] else altscan.Rest(), altscan != null)
    }

    /**
     Opens the two files of an earlier process. What one of them holds is read
     out first. If both hold something, the newer one's contents are copied into
     the older, over its beginning, and the older is read out.
     */
    constructor (f1: OsFile, f2: OsFile, f1IsOlder: bool)
      requires f1 != f2 && f1.offset == 0 && f2.offset == 0
      modifies f1, f2
      ensures Valid() && {cur, alt} == {f1, f2}
      ensures recovered == |old(f1.contents)| + |old(f2.contents)|
      ensures Model() == State([], if f1IsOlder then Recovered(old(f1.contents), old(f2.contents))
                                   else Recovered(old(f2.contents), old(f1.contents)), recovered > 0)
    {
      var n := |f1.contents| + |f2.contents|;
      recovered := n;
      if |f1.contents| > 0 && |f2.contents| == 0 {
        cur, alt := f2, f1;
      } else if |f1.contents| > 0 && |f2.contents| > 0 && f1IsOlder {
        cur, alt := f2, f1;
      } else {
        cur, alt := f1, f2;
      }
      altscan := null;
      new;
      if |cur.contents| > 0 {
        MoveContents(alt, cur);
      }
      if n > 0 {
        altscan := new Scanner(alt);
      }
    }

    /** Copies one file's contents to the other's position, and empties it. */
    static method MoveContents(dst: OsFile, src: OsFile)
      requires dst != src
      modifies dst, src
      ensures dst.contents == Overwritten(old(dst.contents), old(dst.offset), old(src.contents)) && dst.offset == 0
      ensures src.contents == [] && src.offset == 0
    {
      src.SeekStart();
      dst.Write(src.contents);
      src.SeekStart();
      src.Truncate();
      dst.SeekStart();
    }

    method Write(b: seq<Byte>)
      requires Valid()
      modifies cur
      ensures Valid() && Model() == Append(old(Model()), b)
    {
      WritesAtEndAppend(cur.contents, Terminated(b));
      if |b| == 0 || b[|b| - 1] != NEWLINE {
        cur.Write(b + [NEWLINE]);
      } else {
        cur.Write(b);
      }
    }

    method Scan() returns (t: Token)
      requires Valid() && altscan != null
      modifies this, alt, altscan
      ensures Valid() && (Model(), t) == ScanAlt(old(Model()))
      ensures cur == old(cur) && alt == old(alt) && altscan in {old(altscan), null}
    {
      t := altscan.Scan();
      if t.Line? { return; }
      alt.Truncate();
      alt.SeekStart();
      altscan := null;
    }

    method TryReadLine() returns (t: Token)
      requires Valid()
      modifies this, cur, alt, altscan
      ensures Valid() && (Model(), t) == ReadLine(old(Model()))
      ensures {cur, alt} == old({cur, alt})
    {
      if altscan != null {
        t := Scan();
        if !t.End? { return; }
      }
      SwapFiles();
      t := Scan();
    }

    /** Turns to reading what was written, and writes to the file read out. */
    method SwapFiles()
      requires Valid() && alt.contents == [] && alt.offset == 0
      modifies this, cur
      ensures Valid() && altscan != null && fresh(altscan)
      ensures Model() == State([], old(Model()).cur, true)
      ensures cur == old(alt) && alt == old(cur)
    {
      cur, alt := alt, cur;
      alt.SeekStart();
      altscan := new Scanner(alt);
    }
  }

  // ---------------------------------------------------------------------
  // Lines that fit
  // ---------------------------------------------------------------------

  /** Every line can be scanned. */
  ghost predicate Fits(s: seq<Byte>)
    decreases |s|
  {
    s == [] || (NextToken(s).Line? && Fits(s[|NextToken(s).bytes|..]))
  }

  predicate WholeLines(s: seq<Byte>) { s == [] || s[|s| - 1] == NEWLINE }

  /** A file whose first line ends with a newline fits if that line and the rest do. */
  lemma FitsByLine(s: seq<Byte>, n: nat)
    requires 0 < n == IndexNewline(s) + 1
    ensures Fits(s) <==> n <= MAX_TOKEN && Fits(s[n..])
  {
    assert |s[..n]| == n;
  }

  /** What follows whole lines is scanned on its own. */
  lemma {:induction false} FitsAppend(s: seq<Byte>, t: seq<Byte>)
    requires WholeLines(s)
    ensures Fits(s + t) <==> Fits(s) && Fits(t)
    decreases |s|
  {
    if s == [] {
      assert s + t == t;
    } else {
      assert s[|s| - 1] in s;
      var n := IndexNewline(s) + 1;
      IndexNewlineExtends(s, t);
      FitsByLine(s, n);
      FitsByLine(s + t, n);
      assert (s + t)[n..] == s[n..] + t;
      FitsAppend(s[n..], t);
    }
  }

  /** There is a newline among the MAX_TOKEN bytes from i on. */
  ghost predicate NewlineFrom(s: seq<Byte>, i: nat) {
    exists k :: i <= k < i + MAX_TOKEN && k < |s| && s[k] == NEWLINE
  }

  /** Every stretch of MAX_TOKEN bytes has a newline. */
  ghost predicate NoLongLine(s: seq<Byte>) {
    forall i: nat :: i + MAX_TOKEN <= |s| ==> NewlineFrom(s, i)
  }

  /** A file can be scanned to its end, newline or none, exactly when it has no line that is too long. */
  lemma {:induction false} FitsExactly(s: seq<Byte>)
    ensures Fits(s) <==> NoLongLine(s)
    decreases |s|
  {
    var n := IndexNewline(s) + 1;
    if n == 0 {
      if |s| >= MAX_TOKEN {
        assert !NewlineFrom(s, 0);
      }
    } else if n <= MAX_TOKEN {
      FitsByLine(s, n);
      FitsExactly(s[n..]);
      LongLineShifts(s, n);
    } else {
      FitsByLine(s, n);
      assert forall k :: 0 <= k < n - 1 ==> s[k] in s[..n - 1];
      assert !NewlineFrom(s, 0);
    }
  }

  /** A first line that is not too long does not matter. */
  lemma LongLineShifts(s: seq<Byte>, n: nat)
    requires 0 < n <= |s| && n <= MAX_TOKEN && s[n - 1] == NEWLINE
    ensures NoLongLine(s) <==> NoLongLine(s[n..])
  {
    forall i: nat | i < |s|
      ensures i < n ==> NewlineFrom(s, i)
      ensures i >= n ==> (NewlineFrom(s, i) <==> NewlineFrom(s[n..], i - n))
    {
      NewlineShifts(s, n, i);
    }
    forall i: nat | i + MAX_TOKEN <= |s[n..]|
      ensures NewlineFrom(s[n..], i) <==> NewlineFrom(s, i + n)
    {
      NewlineShifts(s, n, i + n);
    }
  }

  lemma NewlineShifts(s: seq<Byte>, n: nat, i: nat)
    requires 0 < n <= |s| && n <= MAX_TOKEN && s[n - 1] == NEWLINE
    ensures i < n ==> NewlineFrom(s, i)
    ensures i >= n ==> (NewlineFrom(s, i) <==> NewlineFrom(s[n..], i - n))
  {
    var rest := s[n..];
    assert forall k :: n <= k < |s| ==> s[k] == rest[k - n];
    if i >= n && NewlineFrom(rest, i - n) {
      var k :| i - n <= k < i - n + MAX_TOKEN && k < |rest| && rest[k] == NEWLINE;
      assert s[k + n] == NEWLINE;
    }
  }

  // ---------------------------------------------------------------------
  // Whole runs
  // ---------------------------------------------------------------------

  datatype Step = Put(b: seq<Byte>) | Get

  /** The queue with its history: bytes put in, bytes returned, and bytes in files that were emptied unread. */
  datatype Run = Run(s: State, put: seq<Byte>, got: seq<Byte>, lost: nat)

  function Started(recovered: seq<Byte>): Run { Run(State([], recovered, recovered != []), [], [], 0) }

  function Apply(r: Run, e: Step): Run {
    match e
    case Put(b) => r.(s := Append(r.s, b), put := r.put + Terminated(b))
    case Get =>
      var (s, t) := ReadLine(r.s);
      match t
      case Line(bytes) => r.(s := s, got := r.got + bytes)
      case End => r.(s := s)
      case TooLong => r.(s := s, lost := r.lost + Waiting(r.s) - Waiting(s))
  }

  function Waiting(s: State): nat { |s.alt| + |s.cur| }

  function Exec(r: Run, steps: seq<Step>): Run
  {
    if steps == [] then r else Apply(Exec(r, steps[..|steps| - 1]), steps[|steps| - 1])
  }

  /** A token is taken off the front, if there is one. */
  lemma TokenIsNext(rest: seq<Byte>)
    ensures var t := NextToken(rest);
            && (t.Line? ==> t.bytes != [] && t.bytes + rest[|t.bytes|..] == rest)
            && (t.End? <==> rest == [])
  {
  }

  /** A read takes the next line off the queue, or finds it empty, or throws one whole file away. */
  lemma ReadTakesNext(s: State)
    requires !s.scanning ==> s.alt == []
    ensures var (s', t) := ReadLine(s);
            && (!s'.scanning ==> s'.alt == [])
            && (t.Line? ==> t.bytes != [] && t.bytes + (s'.alt + s'.cur) == s.alt + s.cur)
            && (t.End? <==> s.alt + s.cur == [])
            && (t.End? ==> s'.alt + s'.cur == [])
            && (t.TooLong? ==> s'.alt == [] && s'.cur == (if s.alt != [] then s.cur else []))
            && (t.TooLong? ==> NextToken(if s.alt != [] then s.alt else s.cur).TooLong?)
            && (t.Line? ==> t == NextToken(if s.alt != [] then s.alt else s.cur))
  {
    TokenIsNext(s.alt);
    if s.alt != [] {
      var (s', t) := ScanAlt(s);
      assert t.Line? ==> t.bytes + (s'.alt + s'.cur) == (t.bytes + s'.alt) + s'.cur;
    } else {
      TokenIsNext(s.cur);
      assert s.alt + s.cur == s.cur;
    }
  }

  /** One line: its newline, if it has one, is at its end; only the last line of a file has none. */
  ghost predicate IsLineOf(line: seq<Byte>, rest: seq<Byte>) {
    && line != [] && line <= rest && NEWLINE !in line[..|line| - 1]
    && (line[|line| - 1] == NEWLINE || line == rest)
  }

  /** A read returns exactly one line, of the file being read or else of the other. */
  lemma ReadReturnsOneLine(s: State)
    requires !s.scanning ==> s.alt == []
    ensures var t := ReadLine(s).1; t.Line? ==> IsLineOf(t.bytes, if s.alt != [] then s.alt else s.cur)
  {
    var rest := if s.alt != [] then s.alt else s.cur;
    ReadTakesNext(s);
    var t := NextToken(rest);
    if t.Line? {
      var i := IndexNewline(rest);
      assert i >= 0 ==> t.bytes[..i] == rest[..i];
      assert i < 0 ==> t.bytes == rest && forall b :: b in rest[..|rest| - 1] ==> b in rest;
    }
  }

  /** Nothing lost so far: first in, first out. */
  ghost predicate Fifo(r: Run, recovered: seq<Byte>) {
    r.got + (r.s.alt + r.s.cur) == recovered + r.put
  }

  /** Every byte is accounted for, in order as long as nothing was lost. */
  ghost predicate Accounted(r: Run, recovered: seq<Byte>) {
    && (r.lost == 0 ==> Fifo(r, recovered))
    && |r.got| + r.lost + Waiting(r.s) == |recovered| + |r.put|
  }

  /** Something is lost only if a line does not fit. */
  ghost predicate LossExplained(r: Run, recovered: seq<Byte>) {
    && (r.lost == 0 ==> (Fits(recovered) && Fits(r.put) <==> Fits(r.s.alt) && Fits(r.s.cur)))
    && (r.lost > 0 ==> !(Fits(recovered) && Fits(r.put)))
  }

  ghost predicate Inv(r: Run, recovered: seq<Byte>) {
    && (!r.s.scanning ==> r.s.alt == [])
    && WholeLines(r.s.cur) && WholeLines(r.put)
    && Accounted(r, recovered) && LossExplained(r, recovered)
  }

  lemma PutKeepsInv(r: Run, recovered: seq<Byte>, b: seq<Byte>)
    requires Inv(r, recovered)
    ensures Inv(Apply(r, Put(b)), recovered)
  {
    var t := Apply(r, Put(b));
    assert Accounted(t, recovered) by {
      PutIsFifo(r.got, r.s.alt, r.s.cur, recovered, r.put, Terminated(b));
    }
    assert LossExplained(t, recovered) by {
      PutFits(r.s.cur, r.put, Terminated(b));
    }
  }

  lemma PutFits(cur: seq<Byte>, put: seq<Byte>, line: seq<Byte>)
    requires WholeLines(cur) && WholeLines(put)
    ensures Fits(cur + line) <==> Fits(cur) && Fits(line)
    ensures Fits(put + line) <==> Fits(put) && Fits(line)
  {
    FitsAppend(cur, line);
    FitsAppend(put, line);
  }

  lemma PutIsFifo(got: seq<Byte>, alt: seq<Byte>, cur: seq<Byte>, recovered: seq<Byte>, put: seq<Byte>, line: seq<Byte>)
    ensures got + (alt + cur) == recovered + put ==> got + (alt + (cur + line)) == recovered + (put + line)
  {
    assert got + (alt + (cur + line)) == (got + (alt + cur)) + line;
    assert recovered + (put + line) == (recovered + put) + line;
  }

  lemma GetKeepsInv(r: Run, recovered: seq<Byte>)
    requires Inv(r, recovered)
    ensures Inv(Apply(r, Get), recovered)
  {
    ReadTakesNext(r.s);
    var (s, t) := ReadLine(r.s);
    if t.Line? {
      assert r.got + t.bytes + (s.alt + s.cur) == r.got + (t.bytes + (s.alt + s.cur));
    }
  }

  lemma {:induction false} RunKeepsInv(recovered: seq<Byte>, steps: seq<Step>)
    ensures Inv(Exec(Started(recovered), steps), recovered)
  {
    if steps != [] {
      var r := Exec(Started(recovered), steps[..|steps| - 1]);
      RunKeepsInv(recovered, steps[..|steps| - 1]);
      match steps[|steps| - 1]
      case Put(b) => PutKeepsInv(r, recovered, b);
      case Get => GetKeepsInv(r, recovered);
    }
  }

  /**
   If no line is too long, then over any mix of writes and reads the bytes returned,
   then what is left of the one file, then the other, are all bytes recovered
   and written: nothing lost, doubled or out of order.
   */
  lemma TwoFilesAreAQueue(recovered: seq<Byte>, steps: seq<Step>)
    ensures var r := Exec(Started(recovered), steps);
            && (NoLongLine(recovered) && NoLongLine(r.put) ==> r.lost == 0)
            && (r.lost == 0 ==> Fifo(r, recovered))
            && (!r.s.scanning ==> r.s.alt == [])
  {
    RunKeepsInv(recovered, steps);
    FitsExactly(recovered);
    FitsExactly(Exec(Started(recovered), steps).put);
  }

  /** Once the queue is drained, everything has been returned exactly if no line was too long. */
  lemma DrainedExactly(recovered: seq<Byte>, steps: seq<Step>)
    requires ReadLine(Exec(Started(recovered), steps).s).1.End?
    ensures var r := Exec(Started(recovered), steps);
            r.got == recovered + r.put <==> NoLongLine(recovered) && NoLongLine(r.put)
  {
    RunKeepsInv(recovered, steps);
    var r := Exec(Started(recovered), steps);
    FitsExactly(recovered);
    FitsExactly(r.put);
    ReadTakesNext(r.s);
    assert r.s.alt == [] && r.s.cur == [];
    assert r.got + (r.s.alt + r.s.cur) == r.got;
  }

  /** One line of MAX_TOKEN bytes or more before its newline is never returned. */
  lemma LongLineIsLost(b: seq<Byte>)
    requires |b| >= MAX_TOKEN && NEWLINE !in b
    ensures var r := Exec(Started([]), [Put(b), Get]);
            r.got == [] && r.lost == |b| + 1 && Waiting(r.s) == 0
  {
    var steps := [Put(b), Get];
    assert steps[..1] == [Put(b)];
    var line := b + [NEWLINE];
    assert b[|b| - 1] in b;
    assert line[..|b|] == b;
    IndexNewlineIs(line, |b|);
    assert Exec(Started([]), [Put(b)]) == Apply(Started([]), Put(b)) by {
      assert [Put(b)][..0] == [];
    }
    assert Exec(Started([]), [Put(b)]).s == State(line, [], false) by {
      assert [] + line == line;
    }
  }
}
