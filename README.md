# LiveTest progress bar — a Dafny model

This project models the `ProgressBar` listener of LiveTest, the listener that
renders a live test run as a row of characters. Each test result becomes one
progress mark: `*` for success, `f` for a failed test, `e` for an error, and
`E` for a connection error. The first mark is preceded by a `Running:` prefix.
A line break followed by eleven spaces is written before every mark whose
index is a non-zero multiple of the bar width (70 by default). Marks go either
to raw `echo` or to the dispatcher's optional output sink. With a sink, the
result marks for failures and errors are wrapped in `<failure>`/`<error>` tags
and the prefix becomes `  <info>Running</info>: `. Both paths share one
counter.

`ProgressBar.dfy` holds one module, `Listeners`:

- `ProgressBar` is a class with the source's fields `lineBreakAt` and `counter`.
  It also has `hasOutput`, which says whether the dispatcher provides a sink,
  and two append-only logs: `echoed` for `echo` and `written` for the sink.
  Each log entry is one string handed to `echo` or `write`.
- A ghost field `history` records every mark emitted, with its path and the
  width in force at that moment. `Valid()` is the listener's invariant. It
  requires that `counter == |history|` and that each log equals `Log(history, path)`,
  which replays the history from empty streams. In other words, the counter
  and the two streams are always determined by the marks emitted so far.
- `Pieces(k, e)` is what one call to `echoChar`/`writeChar` appends when `k` marks
  came before it. The methods are proved against it, and the lemmas about the
  history are proved about `Log`.

PHP's `%` takes the sign of the dividend, and `counter` is never negative, so
`counter % lineBreakAt` equals Dafny's Euclidean `%` for any non-zero width.
A negative width therefore behaves like its absolute value (`ModAbs`). The
model allows negative widths and states the line-break count with `Abs(w)`.

## Model

| member | source | states |
|---|---|---|
| `Listeners.ProgressBar.constructor` | src/LiveTest/Packages/Runner/Listeners/ProgressBar.php:31-37 | a new listener has width 70, counter 0, empty streams, and satisfies the invariant |
| `Listeners.ProgressBar.Init` | src/LiveTest/Packages/Runner/Listeners/ProgressBar.php:67-70 | `init(w)` sets the width to `w` (default 70); the counter and both streams are unchanged, and the invariant is kept |
| `Listeners.ProgressBar.EchoChar` | src/LiveTest/Packages/Runner/Listeners/ProgressBar.php:91-105 | echo gets exactly `Pieces(old counter, mark)`: the echo prefix iff the counter was 0, a line break iff the counter was a non-zero multiple of the width, then the mark; the counter goes up by 1; the sink is untouched |
| `Listeners.ProgressBar.WriteChar` | src/LiveTest/Packages/Runner/Listeners/ProgressBar.php:107-125 | with a sink, the sink gets the pieces with the sink prefix and echo is untouched; without one it does exactly what `EchoChar` does and the sink is untouched; the counter goes up by 1 either way |
| `Listeners.ProgressBar.HandleResult` | src/LiveTest/Packages/Runner/Listeners/ProgressBar.php:47-60 | emits the mark and path given by `ResultEmission` and appends its pieces to that path only; for any unlisted status, nothing changes |
| `Listeners.ProgressBar.HandleConnectionStatus` | src/LiveTest/Packages/Runner/Listeners/ProgressBar.php:79-84 | an ERROR connection status echoes `E`, even when a sink exists, and the sink is never written; any other type changes nothing |
| `Listeners.ResultEmission` | src/LiveTest/Packages/Runner/Listeners/ProgressBar.php:49-59 | a mark is emitted iff the status is SUCCESS, FAILED or ERROR; it goes to the sink iff a sink exists; the marks are `*` for success, and for failure and error the tagged form with a sink and the plain `f`/`e` without one |
| `Listeners.Pieces` | src/LiveTest/Packages/Runner/Listeners/ProgressBar.php:95-103 | one call appends two strings when the count so far is a multiple of the width (the prefix on the first mark, a line break later) and otherwise only the mark; the last string is the mark; the first is the prefix iff no mark came before; a line break is among them iff the count so far is a non-zero multiple of the width |
| `Listeners.PiecesCounts` | src/LiveTest/Packages/Runner/Listeners/ProgressBar.php:115-124 | one call writes exactly one progress mark, its own path's prefix only on the first mark, never the other path's prefix, and at most one line break, exactly at non-zero multiples |
| `Listeners.PiecesWithoutPrefix` | src/LiveTest/Packages/Runner/Listeners/ProgressBar.php:95-97 | after the first mark, no call writes either prefix |
| `Listeners.LogAppendOnly` | src/LiveTest/Packages/Runner/Listeners/ProgressBar.php:96-123 | both streams are append-only: later marks, including those written after a width change by `init`, never alter what has already been written |
| `Listeners.MarksMatchHistory` | src/LiveTest/Packages/Runner/Listeners/ProgressBar.php:103-124 | across both streams, the number of progress marks equals the number of emitted characters |
| `Listeners.NoForeignPrefix` | src/LiveTest/Packages/Runner/Listeners/ProgressBar.php:95-117 | over any history, the echo stream never holds the sink prefix and the sink never holds the echo prefix |
| `Listeners.PrefixExactlyOnce` | src/LiveTest/Packages/Runner/Listeners/ProgressBar.php:95-117 | over any history, the prefix is written exactly once, as the first entry of the stream that took the first mark; the other stream never receives its prefix |
| `Listeners.LineBreakCount` | src/LiveTest/Packages/Runner/Listeners/ProgressBar.php:99-121 | with a fixed width `w`, after `n >= 1` marks exactly `(n - 1) / abs(w)` line breaks have been written over both streams, so none comes before the first mark |
| `Listeners.CounterCountsMarks` | src/LiveTest/Packages/Runner/Listeners/ProgressBar.php:33-37 | for a valid listener, `counter` equals the number of progress marks in `echoed` plus those in `written` |
| `Listeners.BarPrefixOnce` | src/LiveTest/Packages/Runner/Listeners/ProgressBar.php:95-117 | for a valid listener that has emitted a mark, there is exactly one prefix across the two streams, of either kind, at the head of the stream that got the first mark |
| `Listeners.BarLineBreaks` | src/LiveTest/Packages/Runner/Listeners/ProgressBar.php:99-121 | for a valid listener whose width never changed, the two streams hold `(counter - 1) / abs(lineBreakAt)` line breaks |

## Left out

- `Base`, `getEventDispatcher()` and `getOutput()` are outside this file. The dispatcher's output sink is modelled by the `hasOutput` field, and its `write` by appends to `written`.
- `echo` and `$output->write` are modelled as appends to `echoed` and `written`. Nothing is actually printed.
- The `@Event` annotations bind handlers by reflection in an external library. Here the handlers are plain methods.
- `Result`, `Response` and `ConnectionStatus` come from other packages. They are reduced to the enumerations `ResultStatus` and `ConnectionType`. Any status or type that the source does not test for is folded into `OtherStatus`/`OtherType`. The `Response` argument of `handleResult` is unused by the logic, so it is dropped.
- `Listeners.ProgressBar.Init`: requires a non-zero width. The source accepts 0, and then `counter % lineBreakAt` divides by zero on the next mark. Under PHP 7 and later this raises. If no mark has been emitted yet, the prefix for that path (echo or sink) has already been written when it raises; on any later mark, nothing is written first. Under PHP 5 it warns and treats the remainder as 0. This model does not capture either behaviour.
- The counter is an unbounded `nat`. PHP's conversion of an integer that overflows to a float is not modelled.
- `Listeners.ProgressBar.HandleResult`: for FAILED and ERROR with a sink, the source asks the dispatcher for the sink twice, once in `handleResult` and once in `writeChar`. For SUCCESS, and for FAILED or ERROR without a sink, it asks only once. The model reads `hasOutput` once, because nothing can change it between the two reads in a single-threaded run.
