/** A model of the LiveTest progress-bar listener.
    The listener receives test outcomes one at a time and renders each as one
    progress mark. Marks go either to the raw echo stream or to the optional
    output sink; both paths share one counter, which decides where the
    "Running" prefix and the line breaks fall. */
module Listeners {

  /** Width of the bar when nothing else is configured. */
  const DefaultWidth: int := 70

  /** Written before the very first mark on the echo path. */
  const EchoPrefix: string := "  Running: "

  /** Written before the very first mark on the sink path. */
  const SinkPrefix: string := "  <info>Running</info>: "

  /** A newline followed by eleven spaces, so that wrapped rows line up under the first mark. */
  const LineBreak: string := "\n           "

  datatype Option<T> = None | Some(value: T)

  /** The status of an evaluated test; `OtherStatus` stands for any value the handler's switch does not list. */
  datatype ResultStatus = Success | Failed | Error | OtherStatus

  /** The type of a connection status; only `ErrorType` is rendered. */
  datatype ConnectionType = ErrorType | OtherType

  /** Where a mark is written: raw `echo`, or the dispatcher's output sink. */
  datatype Path = EchoPath | SinkPath

  /** The progress marks the listener can emit. */
  datatype Mark = Star | PlainFailure | PlainError | ConnectionMark | TaggedFailure | TaggedError
  {
    function Text(): string
    {
      match this
      case Star => "*"
      case PlainFailure => "f"
      case PlainError => "e"
      case ConnectionMark => "E"
      case TaggedFailure => "<failure>f</failure>"
      case TaggedError => "<error>e</error>"
    }
  }

  /** One emitted mark, with the path it took and the bar width in force at that moment. */
  datatype Emit = Emit(path: Path, width: int, mark: Mark)

  function Prefix(p: Path): string
  {
    match p
    case EchoPath => EchoPrefix
    case SinkPath => SinkPrefix
  }

  function OtherPath(p: Path): Path
  {
    match p
    case EchoPath => SinkPath
    case SinkPath => EchoPath
  }

  predicate IsMarkText(s: string)
  {
    s in {"*", "f", "e", "E", "<failure>f</failure>", "<error>e</error>"}
  }

  /** Number of entries of `s` equal to `x`. */
  function Occurrences(s: seq<string>, x: string): nat
  {
    if s == [] then 0 else (if s[0] == x then 1 else 0) + Occurrences(s[1..], x)
  }

  /** Number of entries of `s` that are progress marks. */
  function MarkCount(s: seq<string>): nat
  {
    if s == [] then 0 else (if IsMarkText(s[0]) then 1 else 0) + MarkCount(s[1..])
  }

  function Abs(w: int): nat
  {
    if w < 0 then -w else w
  }

  /** The strings one call of the echo or write routine appends, when `k` marks
      have been emitted before it: the prefix on the first mark only, a line
      break when `k` is a non-zero multiple of the width, then the mark. */
  function Pieces(k: nat, e: Emit): (r: seq<string>)
    requires e.width != 0
    ensures |r| == (if k % e.width == 0 then 2 else 1)
    ensures r[|r| - 1] == e.mark.Text()
    ensures r[0] == Prefix(e.path) <==> k == 0
    ensures LineBreak in r <==> k != 0 && k % e.width == 0
  {
    (if k == 0 then [Prefix(e.path)] else [])
    + (if k % e.width == 0 && k != 0 then [LineBreak] else [])
    + [e.mark.Text()]
  }

  /** Each call contributes exactly one mark, the prefix only on the first mark, and a line break only at a non-zero multiple of the width. */
  lemma PiecesCounts(k: nat, e: Emit)
    requires e.width != 0
    ensures MarkCount(Pieces(k, e)) == 1
    ensures Occurrences(Pieces(k, e), Prefix(e.path)) == (if k == 0 then 1 else 0)
    ensures Occurrences(Pieces(k, e), Prefix(OtherPath(e.path))) == 0
    ensures Occurrences(Pieces(k, e), LineBreak) == (if k != 0 && k % e.width == 0 then 1 else 0)
  {
    var c := e.mark.Text();
    assert |EchoPrefix| == 11 && |SinkPrefix| == 24 && |LineBreak| == 12;
    assert |c| == 1 || |c| == 16 || |c| == 20;
    assert IsMarkText(c) && !IsMarkText(EchoPrefix) && !IsMarkText(SinkPrefix) && !IsMarkText(LineBreak);
    assert c != EchoPrefix && c != SinkPrefix && c != LineBreak;
    assert LineBreak != EchoPrefix && LineBreak != SinkPrefix && EchoPrefix != SinkPrefix;
    var r := Pieces(k, e);
    if k == 0 {
      assert r == [Prefix(e.path), c] && r[1..] == [c] && r[1..][1..] == [];
      assert MarkCount(r[1..]) == 1 && Occurrences(r[1..], Prefix(e.path)) == 0;
      assert Occurrences(r[1..], Prefix(OtherPath(e.path))) == 0 && Occurrences(r[1..], LineBreak) == 0;
    } else if k % e.width == 0 {
      assert r == [LineBreak, c] && r[1..] == [c] && r[1..][1..] == [];
    } else {
      assert r == [c] && r[1..] == [];
    }
  }

  ghost predicate WidthsNonZero(h: seq<Emit>)
  {
    forall i :: 0 <= i < |h| ==> h[i].width != 0
  }

  /** Everything that `history` has appended to the stream of path `p`, replayed from an empty stream. */
  function Log(h: seq<Emit>, p: Path): seq<string>
    requires WidthsNonZero(h)
    decreases |h|
  {
    if h == [] then []
    else Log(h[..|h| - 1], p) + (if h[|h| - 1].path == p then Pieces(|h| - 1, h[|h| - 1]) else [])
  }

  /** The mark `handleResult` renders for a status, and the path it takes. */
  function ResultEmission(status: ResultStatus, hasOutput: bool): (r: Option<(Path, Mark)>)
    ensures r.Some? <==> status != OtherStatus
    ensures r.Some? ==> (r.value.0 == SinkPath <==> hasOutput)
    ensures status == Success ==> r.Some? && r.value.1 == Star
    ensures status == Failed ==> r.Some? && r.value.1 == (if hasOutput then TaggedFailure else PlainFailure)
    ensures status == Error ==> r.Some? && r.value.1 == (if hasOutput then TaggedError else PlainError)
  {
    var path := if hasOutput then SinkPath else EchoPath;
    match status
    case Success => Some((path, Star))
    case Failed => Some((path, if hasOutput then TaggedFailure else PlainFailure))
    case Error => Some((path, if hasOutput then TaggedError else PlainError))
    case OtherStatus => None
  }

  // ---------------------------------------------------------------------------
  // Facts about the replayed streams

  lemma {:induction false} OccurrencesConcat(a: seq<string>, b: seq<string>, x: string)
    ensures Occurrences(a + b, x) == Occurrences(a, x) + Occurrences(b, x)
  {
    if a == [] {
      assert a + b == b;
    } else {
      assert (a + b)[1..] == a[1..] + b;
      OccurrencesConcat(a[1..], b, x);
    }
  }

  lemma {:induction false} MarkCountConcat(a: seq<string>, b: seq<string>)
    ensures MarkCount(a + b) == MarkCount(a) + MarkCount(b)
  {
    if a == [] {
      assert a + b == b;
    } else {
      assert (a + b)[1..] == a[1..] + b;
      MarkCountConcat(a[1..], b);
    }
  }

  /** Emitting one more mark appends its pieces to its own path's stream and leaves the other stream alone. */
  lemma LogSnoc(h: seq<Emit>, e: Emit, p: Path)
    requires WidthsNonZero(h) && e.width != 0
    ensures WidthsNonZero(h + [e])
    ensures Log(h + [e], p) == Log(h, p) + (if e.path == p then Pieces(|h|, e) else [])
  {
    assert (h + [e])[..|h|] == h;
  }

  /** The streams are append-only: whatever later marks are emitted, and whatever
      width is set meanwhile, what was already written stays a prefix. */
  lemma {:induction false} LogAppendOnly(h: seq<Emit>, more: seq<Emit>, p: Path)
    requires WidthsNonZero(h + more)
    ensures WidthsNonZero(h)
    ensures |Log(h, p)| <= |Log(h + more, p)| && Log(h + more, p)[..|Log(h, p)|] == Log(h, p)
  {
    assert forall i :: 0 <= i < |h| ==> h[i] == (h + more)[i];
    if more != [] {
      var init, last := more[..|more| - 1], more[|more| - 1];
      assert h + more == (h + init) + [last];
      forall i | 0 <= i < |h + init|
        ensures (h + init)[i].width != 0
      {
        assert (h + init)[i] == (h + more)[i];
      }
      assert last == (h + more)[|h + more| - 1];
      LogAppendOnly(h, init, p);
      LogSnoc(h + init, last, p);
    } else {
      assert h + more == h;
    }
  }

  /** One more emitted mark adds, to a count over its path's stream, the count over its pieces. */
  lemma StepOccurrences(h: seq<Emit>, e: Emit, p: Path, x: string)
    requires WidthsNonZero(h) && e.width != 0
    ensures WidthsNonZero(h + [e])
    ensures Occurrences(Log(h + [e], p), x)
         == Occurrences(Log(h, p), x) + (if e.path == p then Occurrences(Pieces(|h|, e), x) else 0)
  {
    LogSnoc(h, e, p);
    OccurrencesConcat(Log(h, p), if e.path == p then Pieces(|h|, e) else [], x);
  }

  lemma StepMarkCount(h: seq<Emit>, e: Emit, p: Path)
    requires WidthsNonZero(h) && e.width != 0
    ensures WidthsNonZero(h + [e])
    ensures MarkCount(Log(h + [e], p)) == MarkCount(Log(h, p)) + (if e.path == p then 1 else 0)
  {
    LogSnoc(h, e, p);
    PiecesCounts(|h|, e);
    MarkCountConcat(Log(h, p), if e.path == p then Pieces(|h|, e) else []);
  }

  /** Across both streams, the number of progress marks equals the number of emitted characters. */
  lemma {:induction false} MarksMatchHistory(h: seq<Emit>)
    requires WidthsNonZero(h)
    ensures MarkCount(Log(h, EchoPath)) + MarkCount(Log(h, SinkPath)) == |h|
  {
    if h != [] {
      var init, last := h[..|h| - 1], h[|h| - 1];
      assert h == init + [last];
      assert WidthsNonZero(init) && last.width != 0;
      MarksMatchHistory(init);
      StepMarkCount(init, last, EchoPath);
      StepMarkCount(init, last, SinkPath);
    }
  }

  /** After the first mark, no call writes a prefix to either stream. */
  lemma PiecesWithoutPrefix(k: nat, e: Emit, p: Path)
    requires e.width != 0 && k != 0
    ensures Occurrences(Pieces(k, e), Prefix(p)) == 0
  {
    PiecesCounts(k, e);
    assert p == e.path || p == OtherPath(e.path);
  }

  /** A stream never holds the other path's prefix: the echo stream has no sink prefix and the sink has no echo prefix. */
  lemma {:induction false} NoForeignPrefix(h: seq<Emit>, p: Path)
    requires WidthsNonZero(h)
    ensures Occurrences(Log(h, p), Prefix(OtherPath(p))) == 0
  {
    if h != [] {
      var init, last := h[..|h| - 1], h[|h| - 1];
      assert h == init + [last];
      assert WidthsNonZero(init) && last.width != 0;
      NoForeignPrefix(init, p);
      StepOccurrences(init, last, p, Prefix(OtherPath(p)));
      PiecesCounts(|init|, last);
    }
  }

  /** The "Running" prefix appears exactly once, in the stream that received the first
      mark and as its first entry; the other stream never gets its own prefix. */
  lemma {:induction false} PrefixExactlyOnce(h: seq<Emit>)
    requires WidthsNonZero(h)
    requires h != []
    ensures Occurrences(Log(h, h[0].path), Prefix(h[0].path)) == 1
    ensures Occurrences(Log(h, OtherPath(h[0].path)), Prefix(OtherPath(h[0].path))) == 0
    ensures Log(h, h[0].path) != [] && Log(h, h[0].path)[0] == Prefix(h[0].path)
  {
    var p, q := h[0].path, OtherPath(h[0].path);
    var init, last := h[..|h| - 1], h[|h| - 1];
    assert h == init + [last];
    assert WidthsNonZero(init) && last.width != 0;
    StepOccurrences(init, last, p, Prefix(p));
    StepOccurrences(init, last, q, Prefix(q));
    LogSnoc(init, last, p);
    if init == [] {
      assert last == h[0];
      PiecesCounts(0, last);
    } else {
      assert init[0] == h[0];
      PrefixExactlyOnce(init);
      PiecesWithoutPrefix(|init|, last, p);
      PiecesWithoutPrefix(|init|, last, q);
    }
  }

  lemma {:induction false} MulAtLeast(m: int, d: int)
    requires m >= 1 && d >= 1
    ensures m * d >= m
  {
    if d > 1 {
      MulAtLeast(m, d - 1);
      assert m * d == m * (d - 1) + m;
    }
  }

  lemma DivModUnique(n: int, m: int, q: int, r: int)
    requires m >= 1 && 0 <= r < m && n == m * q + r
    ensures n / m == q && n % m == r
  {
    var q', r' := n / m, n % m;
    var d := q - q';
    assert n == m * q' + r' && 0 <= r' < m;
    assert m * d == m * q - m * q';
    if d >= 1 {
      MulAtLeast(m, d);
    } else if d <= -1 {
      MulAtLeast(m, -d);
    }
  }

  /** With a non-negative dividend, a remainder by `w` is the remainder by `|w|`. */
  lemma ModAbs(k: nat, w: int)
    requires w != 0
    ensures k % w == k % Abs(w)
  {
    if w < 0 {
      var q, r := k / w, k % w;
      assert k == w * q + r;
      assert w * q == Abs(w) * (-q);
      DivModUnique(k, Abs(w), -q, r);
    }
  }

  /** Going from `n - 1` to `n` characters, the quotient by the width grows by one exactly at a multiple. */
  lemma DivStep(n: int, m: int)
    requires n >= 1 && m >= 1
    ensures n / m == (n - 1) / m + (if n % m == 0 then 1 else 0)
  {
    var q, r := (n - 1) / m, (n - 1) % m;
    assert n - 1 == m * q + r && 0 <= r < m;
    if r + 1 < m {
      DivModUnique(n, m, q, r + 1);
    } else {
      assert n == m * (q + 1) + 0;
      DivModUnique(n, m, q + 1, 0);
    }
  }

  ghost predicate ConstantWidth(h: seq<Emit>, w: int)
  {
    forall i :: 0 <= i < |h| ==> h[i].width == w
  }

  /** With a fixed width `w`, after `n >= 1` marks exactly `(n - 1) / |w|` line breaks have been written, counting both streams. */
  lemma {:induction false} LineBreakCount(h: seq<Emit>, w: int)
    requires w != 0 && ConstantWidth(h, w)
    requires h != []
    ensures WidthsNonZero(h)
    ensures Occurrences(Log(h, EchoPath), LineBreak) + Occurrences(Log(h, SinkPath), LineBreak) == (|h| - 1) / Abs(w)
  {
    var init, last := h[..|h| - 1], h[|h| - 1];
    var n := |init|;
    assert h == init + [last];
    assert ConstantWidth(init, w) && last.width == w;
    PiecesCounts(n, last);
    StepOccurrences(init, last, EchoPath, LineBreak);
    StepOccurrences(init, last, SinkPath, LineBreak);
    if n > 0 {
      LineBreakCount(init, w);
      ModAbs(n, w);
      DivStep(n, Abs(w));
    }
  }

  // ---------------------------------------------------------------------------
  // The listener

  class ProgressBar {
    /** Bar width: a line break is written before every mark whose index is a non-zero multiple of it. */
    var lineBreakAt: int
    /** Number of marks emitted so far, over both paths. */
    var counter: nat
    /** Whether the dispatcher currently provides an output sink. */
    var hasOutput: bool
    /** Everything written with `echo`, one entry per call. */
    var echoed: seq<string>
    /** Everything written to the output sink, one entry per call. */
    var written: seq<string>
    /** The marks emitted so far, in order. */
    ghost var history: seq<Emit>

    ghost predicate Valid()
      reads this
    {
      && lineBreakAt != 0
      && WidthsNonZero(history)
      && counter == |history|
      && echoed == Log(history, EchoPath)
      && written == Log(history, SinkPath)
    }

    constructor (hasOutput: bool)
      ensures Valid()
      ensures lineBreakAt == DefaultWidth && counter == 0 && this.hasOutput == hasOutput
      ensures echoed == [] && written == [] && history == []
    {
      lineBreakAt := DefaultWidth;
      counter := 0;
      this.hasOutput := hasOutput;
      echoed := [];
      written := [];
      history := [];
    }

    /** Sets the bar width; nothing else changes, and output already written is unaffected. */
    method Init(w: int := DefaultWidth)
      requires Valid() && w != 0
      modifies this`lineBreakAt
      ensures Valid() && lineBreakAt == w
      ensures counter == old(counter) && echoed == old(echoed) && written == old(written)
    {
      lineBreakAt := w;
    }

    /** Echoes one mark: the prefix before the first mark, a line break at every
        non-zero multiple of the width, then the mark. */
    method EchoChar(m: Mark)
      requires Valid()
      modifies this`counter, this`echoed, this`history
      ensures Valid()
      ensures history == old(history) + [Emit(EchoPath, lineBreakAt, m)]
      ensures counter == old(counter) + 1
      ensures echoed == old(echoed) + Pieces(old(counter), Emit(EchoPath, lineBreakAt, m))
      ensures written == old(written)
    {
      ghost var e := Emit(EchoPath, lineBreakAt, m);
      LogSnoc(history, e, EchoPath);
      LogSnoc(history, e, SinkPath);
      if counter == 0 {
        echoed := echoed + [EchoPrefix];
      }
      if counter % lineBreakAt == 0 && counter != 0 {
        echoed := echoed + [LineBreak];
      }
      echoed := echoed + [m.Text()];
      counter := counter + 1;
      history := history + [e];
    }

    /** Writes one mark to the sink, with the sink's own prefix; without a sink it falls back to `EchoChar`. */
    method WriteChar(m: Mark)
      requires Valid()
      modifies this`counter, this`echoed, this`written, this`history
      ensures Valid()
      ensures history == old(history) + [Emit(if hasOutput then SinkPath else EchoPath, lineBreakAt, m)]
      ensures counter == old(counter) + 1
      ensures hasOutput ==> echoed == old(echoed)
      ensures hasOutput ==> written == old(written) + Pieces(old(counter), Emit(SinkPath, lineBreakAt, m))
      ensures !hasOutput ==> written == old(written)
      ensures !hasOutput ==> echoed == old(echoed) + Pieces(old(counter), Emit(EchoPath, lineBreakAt, m))
    {
      if !hasOutput {
        EchoChar(m);
        return;
      }
      ghost var e := Emit(SinkPath, lineBreakAt, m);
      LogSnoc(history, e, EchoPath);
      LogSnoc(history, e, SinkPath);
      if counter == 0 {
        written := written + [SinkPrefix];
      }
      if counter % lineBreakAt == 0 && counter != 0 {
        written := written + [LineBreak];
      }
      written := written + [m.Text()];
      counter := counter + 1;
      history := history + [e];
    }

    /** Renders a test result: '*' on success, 'f' on failure, 'e' on error (tagged
        when a sink exists); any other status writes nothing. */
    method HandleResult(status: ResultStatus)
      requires Valid()
      modifies this`counter, this`echoed, this`written, this`history
      ensures Valid()
      ensures ResultEmission(status, hasOutput).None? ==>
        counter == old(counter) && echoed == old(echoed) && written == old(written) && history == old(history)
      ensures ResultEmission(status, hasOutput).Some? ==>
        var (p, m) := ResultEmission(status, hasOutput).value;
        && history == old(history) + [Emit(p, lineBreakAt, m)]
        && counter == old(counter) + 1
        && (if p == EchoPath then echoed else written)
           == old(if p == EchoPath then echoed else written) + Pieces(old(counter), Emit(p, lineBreakAt, m))
        && (if p == EchoPath then written else echoed) == old(if p == EchoPath then written else echoed)
    {
      match status
      case Success =>
        WriteChar(Star);
      case Failed =>
        if hasOutput {
          WriteChar(TaggedFailure);
        } else {
          EchoChar(PlainFailure);
        }
      case Error =>
        if hasOutput {
          WriteChar(TaggedError);
        } else {
          EchoChar(PlainError);
        }
      case OtherStatus =>
    }

    /** Renders a failed connection as 'E', always through `echo`, even when a sink exists. */
    method HandleConnectionStatus(kind: ConnectionType)
      requires Valid()
      modifies this`counter, this`echoed, this`history
      ensures Valid()
      ensures kind == ErrorType ==>
        && history == old(history) + [Emit(EchoPath, lineBreakAt, ConnectionMark)]
        && counter == old(counter) + 1
        && echoed == old(echoed) + Pieces(old(counter), Emit(EchoPath, lineBreakAt, ConnectionMark))
      ensures kind != ErrorType ==> counter == old(counter) && echoed == old(echoed) && history == old(history)
      ensures written == old(written)
    {
      if kind == ErrorType {
        EchoChar(ConnectionMark);
      }
    }
  }

  /** The hidden invariant of the listener: its counter is the number of progress marks it has written, over both streams. */
  lemma CounterCountsMarks(bar: ProgressBar)
    requires bar.Valid()
    ensures bar.counter == MarkCount(bar.echoed) + MarkCount(bar.written)
  {
    MarksMatchHistory(bar.history);
  }

  /** On the listener: once a mark has been emitted, the stream that took the first mark starts
      with its "Running" prefix, and neither stream holds any other prefix. */
  lemma BarPrefixOnce(bar: ProgressBar)
    requires bar.Valid() && bar.counter > 0
    ensures Occurrences(bar.echoed, EchoPrefix) + Occurrences(bar.written, SinkPrefix) == 1
    ensures Occurrences(bar.echoed, SinkPrefix) == 0 && Occurrences(bar.written, EchoPrefix) == 0
    ensures bar.history[0].path == EchoPath ==> |bar.echoed| > 0 && bar.echoed[0] == EchoPrefix && Occurrences(bar.written, SinkPrefix) == 0
    ensures bar.history[0].path == SinkPath ==> |bar.written| > 0 && bar.written[0] == SinkPrefix && Occurrences(bar.echoed, EchoPrefix) == 0
  {
    PrefixExactlyOnce(bar.history);
    NoForeignPrefix(bar.history, EchoPath);
    NoForeignPrefix(bar.history, SinkPath);
  }

  /** On the listener: while the width has not been changed, `counter` marks carry `(counter - 1) / |width|` line breaks. */
  lemma BarLineBreaks(bar: ProgressBar)
    requires bar.Valid() && bar.counter > 0 && ConstantWidth(bar.history, bar.lineBreakAt)
    ensures Occurrences(bar.echoed, LineBreak) + Occurrences(bar.written, LineBreak) == (bar.counter - 1) / Abs(bar.lineBreakAt)
  {
    LineBreakCount(bar.history, bar.lineBreakAt);
  }
}
