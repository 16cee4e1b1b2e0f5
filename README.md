# GreenLight signal engine — a Dafny model

This project models the streaming decision engine of a crypto-derivatives
monitor (`signal_engine.py`) and the two pure rules that `main.py` puts on top
of it. Each poll the engine receives a price, the order book, open interest,
the funding fraction and a taker-flow summary. It measures resting liquidity
inside a ±band around the price, tracks the change of that liquidity and of
open interest since the previous poll, runs an anti-spoof persistence filter
over the depth signal, optionally annotates the nearest configured price zone,
and classifies the poll as RED, GREEN or WAIT with an ordered list of comments
and a metrics record. `main.py` then combines two venues' statuses into one
headline signal and picks the colour each status is printed in.

Layout:

- `common.dfy` — `Option`, the `Outcome` of a call that may raise
  `ZeroDivisionError`, and `Abs`.
- `book.dfy` (module `Book`) — `depth_usd_within_band`: the loop method, and
  the specification it is proved against (the longest in-band prefix and its
  notional sum).
- `zones.dfy` (module `Zones`) — `nearest_zone`: the scan method, and the
  specification of the earliest closest zone.
- `engine.dfy` (module `Engine`) — `EngineConfig`, `pct_change`, `_decide` as
  the function `Decision`, one whole `update` as the function `Step` on an
  `EngineState` value, lemmas about both, and the class `GreenLightEngine`.
  The class's methods change its fields in place and are proved equal to
  `Step`/`Decision`. A ghost log of every depth flag ever appended shows that
  the bounded history is always the newest `max(1, depth_persist_polls)`
  flags.
- `combined_signal.dfy` (module `CombinedSignal`) — `c_status` and the
  combined-signal rule of `main.py`.

Where the code does less than its own comments promise, or than a reader
might expect, the model follows the code:

- The persistence filter takes `all(...)` over a history that may not yet be
  full. RED polls return before the append, so after RED-only polls (or on a
  fresh engine whose depth threshold is not positive) a single active depth
  poll already counts as persisted. The comment on the setting
  (signal_engine.py:13, "depth must persist N polls") and the class docstring
  (signal_engine.py:67, "depth active (persisted)") promise
  `depth_persist_polls` consecutive active polls. `EmptyHistoryConfirmsAtOnce`
  and `SpikeAfterRedIsConfirmedAtOnce` state what the code does.
- Configuration is not validated when the engine is built. A zone at level 0
  makes every `update` raise `ZeroDivisionError` inside `nearest_zone`. By
  then the baselines have already moved to the current poll, and the depth
  history has not changed. A `depth_persist_polls` below 1 is clamped to a
  window of 1.
- The first poll of a fresh engine has zero depth delta and zero OI change.
  It is never GREEN when `min_depth_delta_usd > 0` or `min_oi_move_pct > 0`
  (`FirstPollNeverGreen`; the defaults have both), and can be GREEN only when
  both thresholds are 0 or below and the taker test passes.

## Model

| member | source | states |
|---|---|---|
| `Engine.PctChange` | signal_engine.py:18-21 | 0 when the old value is 0; otherwise the result is the percentage move, so `new == old + old*r/100` recovers the new value |
| `Book.InBandPrefix` | signal_engine.py:33-42 | the length of the longest prefix of a book side whose levels all pass the band test (`p >= lo` for bids, `p <= hi` for asks); the level right after it, if any, fails |
| `Book.SideUsd` | signal_engine.py:29-44 | a side's band liquidity is the notional sum of that prefix; 0 for an empty side; the full sum when every level is in the band |
| `Book.StopsAtFirstOutOfBand` | signal_engine.py:33-35 | stop, not skip: nothing from the first out-of-band level on contributes, even levels that re-enter the band |
| `Book.DepthUsdWithinBand` | signal_engine.py:23-44 | the two break-at-first-out-of-band loops compute exactly `SideUsd` of bids against `mid*(1-band)` and of asks against `mid*(1+band)` |
| `Book.WorkedBook` | signal_engine.py:29-44 | mid 100000, band 1%: bids (99900,1),(99800,2) give 299500 and ask (100100,1) gives 100100 |
| `Zones.FirstClosest` | signal_engine.py:49-53 | the left-to-right scan with strict `<` keeps a zone of least relative distance, and every earlier zone is strictly farther (first wins ties) |
| `Zones.ZoneMatch` | signal_engine.py:46-56 | raises exactly when some zone has level 0; None for no zones and exactly when every distance exceeds the proximity; otherwise the earliest closest zone with its distance, which is within the proximity |
| `Zones.NearestZone` | signal_engine.py:46-56 | the scan method returns exactly `ZoneMatch`, raising when it reaches a zero level |
| `Zones.TieGoesToFirst` | signal_engine.py:52 | of two zones at equal distance within proximity, the first listed is returned |
| `Engine.Capacity` | signal_engine.py:75 | the history's maxlen `max(1, depth_persist_polls)` is at least 1 and at least the setting |
| `Engine.Window` | signal_engine.py:75 | a maxlen-`n` deque after a sequence of appends holds `min(n, count)` elements |
| `Engine.WindowKeepsNewest` | signal_engine.py:75 | the window is the suffix of what was appended: the oldest elements are the ones dropped |
| `Engine.WindowAppend` | signal_engine.py:133 | appending to a full window drops its oldest element; otherwise it just grows |
| `Engine.WindowSlides` | signal_engine.py:133 | keeping only the window loses nothing later windows need: the window of (window + x) is the window of (everything + x) |
| `Engine.ConfirmedIffStreak` | signal_engine.py:134 | once at least `n` flags were appended, every flag in the window is true exactly when the last `n` flags are all true |
| `Engine.DecisionRules` | signal_engine.py:116-164 | RED exactly when abs(funding%) exceeds the limit, with one comment and the history untouched; otherwise the depth flag is appended and GREEN holds exactly when every flag in the window is true and OI and taker flow are active (for every persistence setting); GREEN implies the current depth flag |
| `Engine.CommentLayout` | signal_engine.py:120-164 | off the RED path there are 3 comments, +1 with zones configured, +1 on GREEN, in the order zone, depth, taker, OI, GREEN summary; the depth note is low / persisted / spike according to the current flag and the window; the zone note carries the hit; taker weak and OI flat match their tests, and a flow-confirms note names buyers exactly when the taker delta is positive |
| `Engine.TakerDeltaUsd` | signal_engine.py:94-96 | no trade summary gives 0; otherwise buy minus sell, each missing key read as 0 |
| `Engine.BaselinesAlwaysAdvance` | signal_engine.py:82-92 | after every update, RED or raising ones included, the stored bid/ask liquidity and OI are this poll's values; an update raises exactly when a configured zone has level 0 |
| `Engine.HistoryOnlyAdvancesPastRed` | signal_engine.py:117-118 | a RED or raising update leaves the depth history as it was; any other appends this poll's depth flag with eviction; the history never outgrows its capacity |
| `Engine.MetricsOfStep` | signal_engine.py:100-110 | when no configured zone level is 0 the poll returns, and the metrics record carries price, OI, OI change, funding%, both band liquidities, depth delta, taker delta and the zone hit |
| `Engine.NoBaselineNoDeltas` | signal_engine.py:82-89 | when no configured zone level is 0, without a stored baseline the depth delta and the OI change are 0 |
| `Engine.DeltasAgainstBaseline` | signal_engine.py:82-90 | with a baseline the depth delta is `(bid-prevBid)-(ask-prevAsk)`, positive exactly when bid liquidity grew more than ask liquidity; the OI change is `PctChange` from the previous OI |
| `Engine.FirstPollNeverGreen` | signal_engine.py:82-89 | with a positive depth threshold or a positive OI threshold, the first poll of a fresh engine is never GREEN |
| `Engine.DefaultsFirstPoll` | signal_engine.py:7-16 | under the dataclass defaults the history window is 2, no poll raises, and a fresh engine's first poll is never GREEN |
| `Engine.EmptyHistoryConfirmsAtOnce` | signal_engine.py:132-134 | with an empty history (all polls so far RED), a non-RED poll is GREEN exactly when its own depth, OI and taker tests pass, whatever the persistence setting |
| `Engine.SpikeAfterRedIsConfirmedAtOnce` | signal_engine.py:117-134 | with persistence 3, a RED first poll followed by a single depth spike with OI and taker activity gives GREEN on the second poll |
| `Engine.GreenLightEngine.constructor` | signal_engine.py:70-75 | a new engine has no baselines and an empty history |
| `Engine.GreenLightEngine.Update` | signal_engine.py:77-111 | the returned outcome and the new fields are exactly `Step` of the old fields; the flag log grows by this poll's depth flag only when the result is not RED and nothing was raised |
| `Engine.GreenLightEngine.AppendDepthFlag` | signal_engine.py:133 | the history becomes the window of the old history plus the flag, and stays the newest `Capacity` flags of the log |
| `Engine.GreenLightEngine.Decide` | signal_engine.py:113-164 | status, comments and the new history are exactly `Decision` of the old history; the log grows only off the RED path |
| `CombinedSignal.StatusColour` | main.py:11-16 | "GREEN" is green, "RED" is red, and every other string falls through to yellow; the text is kept |
| `CombinedSignal.Combine` | main.py:83-88 | RED exactly when either venue is RED; GREEN exactly when both are GREEN; WAIT otherwise; the result is always one of the three |
| `CombinedSignal.CombineStatuses` | main.py:83-88 | on the engines' status names, the combined signal is RED iff either is RED, GREEN iff both are GREEN, WAIT otherwise |
| `CombinedSignal.CombineSymmetric` | main.py:83-88 | the combined signal does not depend on the order of the venues |

## Left out

- The exchange clients (`bybit_public.py`, `binance_public.py`) are not part of this model. They are HTTP and JSON I/O with wall-clock windows, and their values reach the engine as the inputs of `Update`.
- The poll loop of `main.py` (lines 57-101) is left out: the infinite loop, `sleep`, printing, the tips and the catch-all `except`. A raised `ZeroDivisionError` is returned as `Outcome.ZeroDivisionError`; what the loop does with it is not modelled.
- `fmt_row` and `print_comments` in `main.py` are presentation only and are left out.
- `config.py`, `timer.py` and `PMC.py` are not part of this model. They load environment variables, run a countdown alarm, and do an unrelated gram-price calculation.
- Comment text and number formatting (`:.1f`, `:.4f`, the `/1e6` display scaling) are not modelled. Each comment is a `Comment` constructor that carries the unscaled values it reports.
- Floats are modelled as exact reals. Rounding, NaN and infinities are not modelled.
- `float(...)` coercion of the trade summary's values is not modelled. The summary is an optional record of two optional reals, and a missing key reads as 0.
- `StatusColour` keeps the colour and the text but not the `Style.RESET_ALL` suffix.
- Bids and asks are taken as already-parsed `(price, qty)` levels. Whether a book is sorted is not checked, as in the code; the band sums are proved for any order.
