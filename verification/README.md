# Verified model of the market data platform

A Dafny model of the platform's processing core, with proofs. Events travel from a Kafka log into
Bronze, are judged by the validation rules into Silver or Quarantine, and are aggregated into Gold
market windows; a connector streams raw trades from the exchange. The model covers the three
processing stages as one crash-tolerant state machine, the window aggregation and its arithmetic, and
the connector's reconnect loop.

`dafny verify dfyconfig.toml` checks the whole project.

## How it is built

- **Classes follow the source's services and repositories**: `BronzeRepository`, `SilverRepository`,
  `QuarantineRepository`, `GoldRepository`, `KafkaConsumer`, `BronzeIngestionService`,
  `TrustRoutingService`, `GoldProcessingService`, `ProcessingPipeline`, `CoinbaseConnector`. Each
  method is proved equal to a specification function of the old state (`Ingest` to `IngestUpTo`,
  `ProcessBatch` to `RouteBatch` or `GoldBatch`, `RunStages` to `RunOnce`, `Stream` to `StreamLink`).
  The theorems are about those functions, against independent definitions: the plain group-by
  (`IsGroupBy`), the insert-if-absent fold of the log (`LandAll`), the calendar and its grid
  (`Aligned`, `InWindow`), the demands of trust (`Trustworthy`), the exact quotient (`RoundsMean`), the
  connection-by-connection stream (`Expected`).
- **Decimals are rounded where the source rounds them**: every sum, product and quotient of a window
  goes through `Rounding.Rounded`, 28 significant digits half even, and `quantize` raises when its
  result needs more. `StoredTotals` shows that this is what coefficients and exponents compute.
- **The world** (`Events.World`) is what a run does not decide: the clock's readings, which
  input/output operations fail, which failed writes and commits had taken effect all the same, and
  which partition the broker serves. All are arbitrary functions, so a theorem about every
  environment is a theorem about every pattern of failures.
- **All runs**: `Runs.Reached` is the state after any list of actions, each a message produced or a
  whole processing run that may fail anywhere and is then closed and started again.

| file | contents |
|---|---|
| `Ordering`, `Sequences` | sort keys, stable sort, sums, selections, pages |
| `Events` | contracts, the world, clocks |
| `Identity`, `Windows` | identity strings, calendar, window arithmetic |
| `Validation`, `TrustRouting` | rules, engine, routing |
| `Rounding`, `TwoRoundings` | `quantize`, rounding to 28 significant digits, and one after the other |
| `Aggregation` | OHLCV and average price, every operation rounded |
| `DecimalContext`, `StoredTotals` | the decimal machine of coefficients and exponents, and that it computes the figures |
| `Warehouse` | the four tables |
| `Gold`, `GoldProperties`, `GoldFaults` | recomputation, group-by, exactly when it succeeds |
| `GoldHistory`, `RowEvolution` | finality, rows over time |
| `Ingestion`, `IngestionProperties`, `Connections` | consumer, commits, delivery, several calls on one connection |
| `Pipeline`, `Runs`, `EndToEnd`, `Faults` | a pass, all runs, convergence, exactly when a run succeeds |
| `BoundedPasses`, `Scenarios` | passes smaller than the tables, small whole stories |
| `Reports` | what a pass reports and refuses |
| `Coinbase`, `CoinbaseProperties` | the reconnecting stream |

## Where the code and its documentation differ

The model follows the code.

- `messaging/consumer.py:167-170` says an undecodable message is not committed. It is, exactly when a
  later message of its partition that decodes is committed (`CommittedPastOverAllRuns`, `RereadIff`;
  `CommitPassesUndecodable` is a trace). Delivery is stated for decodable messages.
- After a failed `ingest` another call on the same connection is safe, unless the failure was an append
  that left its message unstored and the next decodable message of that partition is a different event;
  both can be told before the call (`CoveredAfterCallIff`, `ContinuingIsSafeIff`;
  `SkippedWithoutRestart` is a trace). A restart, as `processing/main.py` does it, is always safe.
- `processing/pipeline.py:30-32` speaks of a batch that ingests nothing. The Kafka consumer's stream does
  not end, so a call that asks for more messages than are left waits; `IngestTakesMinimum` and
  `LiveRunSucceedsIff` say exactly which calls those are.
- `common/contracts/gold.py:14-16` promises exact decimal arithmetic. Python's default context keeps 28
  digits. Exactly when nothing is lost: `RoundingIsExactIff` for one operation, `VolumeIsExactIff` and
  `NotionalIsExactIff` for the loop, `StoredVwapIff` and `VwapIsRoundedMeanIff` for the average price;
  `FiguresAreExact` is a bound for a whole row. `SampleVolumeIsRounded`, `SidesCanDisagree`,
  `TwoRoundingsMissTheBound` and `TieGoesToEven` are concrete inputs.
- `quantize` raises when its result needs more than 28 digits, and the default rules let such trades
  through: one at 1E+20 stops the Gold stage (`LongPriceStopsGold`), and so do two units at a price that
  fits, because their product is rounded up (`RoundedProductStopsGold`).
- `window_start + timedelta` raises beyond the year 9999, and the default rules let such trades through
  too (`LastMinuteStopsGold`). `TrustedBatchSucceedsIff`, `RunSucceedsIff` and
  `FaultFreeRunSucceedsIff` say exactly when none of this stops Gold, and `OneGoodRunConverges` gives
  conditions that can be checked event by event.
- `window_start_for` truncates a double toward zero. Before the epoch, and in the last microseconds of a
  second from the year 2514 on, a timestamp can fall outside its own window (`PreEpochEscapes`,
  `LateMicrosecondEscapes`); `AssignedWindowContains` with `SecondsAheadIff` says exactly when.
- A row marked final is still rewritten when its window is recomputed, and a late trade changes it
  (`LateTradeChangesFinalRow`). A rewrite keeps the figures exactly when the row had counted every
  event its window has in Silver (`RewriteKeepsFiguresIff`); that is so for good while no event of the
  window is validated at or after its end plus the allowed lateness (`FinalRowIsSettled`).
- A rejection is refused when the clock shows the same instant twice for one event
  (`StoppedClockClashes`); `PageSucceedsIff` and `BatchSucceedsIff` say exactly when a batch succeeds,
  and `StrictClockNeverClashes` that a strictly increasing clock never refuses one.
- `processing/pipeline.py:22-25` calls repeated bounded passes safe. They are, but each starts at the
  first row: what lies beyond the first `batch_size` rows of the replay order is never routed
  (`BoundedRunsNeverReach`; `BatchCoversIff` says exactly when a batch covers Bronze).

## Model

| member | source | states |
|---|---|---|
| `Windows.AssignedWindowContains` | processing/gold/windows.py:36-48 | In every year: a timestamp lies in its assigned window unless, exactly, its truncated seconds are ahead of it and begin a window |
| `Windows.SecondsAheadIff` | processing/gold/windows.py:46 | The truncated seconds are ahead exactly before the epoch between two whole seconds, unless the double is the earlier one, and where the double rounds up to the next second |
| `Windows.NeverUpBefore2514` | processing/gold/windows.py:46 | Below 2^34 seconds the double of timestamp() never rounds up to the next second |
| `Windows.PreEpochEscapes` | processing/gold/windows.py:46-48 | Concrete failure: half a second before the epoch is assigned to the window that starts at the epoch |
| `Windows.LateMicrosecondEscapes` | processing/gold/windows.py:46-48 | Concrete failure: the last microsecond of a minute of the year 2514 is assigned to the next minute |
| `Windows.WindowsPartitionTime` | processing/gold/windows.py:36-48 | From the epoch to 2^34 seconds (the year 2514), the assigned start is aligned, and it is the only aligned start whose window contains the timestamp |
| `Windows.OneWindow` | processing/gold/windows.py:36-48 | In every year no two windows of the grid share an instant |
| `Windows.WindowStartMonotone` | processing/gold/windows.py:36-48 | Later timestamps are never assigned to earlier windows, in any year, the doubles included |
| `Windows.WindowsNest` | processing/gold/windows.py:36-48 | When one window size divides another, a timestamp and the start of its fine window share the coarse window, in any year |
| `Windows.BoundsAreTheWindow` | processing/gold/windows.py:51-54 | The bounds are of the configured size and aligned at both ends, and around the timestamp exactly unless its truncated seconds are ahead and begin a window |
| `Windows.WindowStartRaisesIff` | processing/gold/windows.py:36-48 | There is no window exactly when the size is not positive (an argument error), or when the timestamp carries no timezone or the start lies outside the years 1 to 9999 (data) |
| `Identity.WindowIdInjective` | common/contracts/gold.py:40-48 | Two window ids are equal exactly when symbol and start are, whatever characters a symbol contains, so the primary key and the unique pair agree |
| `Identity.IsoInjective` | common/contracts/gold.py:40-48 | The 25-character ISO text of a whole UTC second determines that second, through the Gregorian calendar |
| `Identity.CalendarLimits` | common/contracts/gold.py:40-48 | The instants a datetime holds run from 1 January of the year 1 to the last microsecond of 9999, and the epoch is 1 January 1970 |
| `Identity.CivilIsUnique` | common/contracts/gold.py:40-48 | Calendar fields in range name one second only, so the fields computed from a second are its date and time |
| `Identity.EpochText` | common/contracts/gold.py:40-48 | Second 0 is 1970-01-01T00:00:00+00:00 |
| `Identity.LeapDayText` | common/contracts/gold.py:40-48 | Second 1709210096 is 2024-02-29T12:34:56+00:00 |
| `Identity.LastSecondText` | common/contracts/gold.py:40-48 | Second 253402300799 is 9999-12-31T23:59:59+00:00 |
| `Identity.WindowIdText` | common/contracts/gold.py:40-48 | A whole window id, BTC-USD:1970-01-01T00:00:00+00:00 |
| `Identity.LastColonSplits` | producer/preparation/dev.py:155 | A text that ends in a colon and a colon-free tail splits in only one way |
| `Identity.DevEventIdInjective` | producer/preparation/dev.py:155 | Two development event ids are equal exactly when trade id and trade time are, signs and colons included |
| `Identity.DevEventIdText` | producer/preparation/dev.py:155 | A whole development event id, dev:a:b:1700 for trade a:b |
| `Identity.NegativeText` | producer/preparation/dev.py:155 | A negative time is written with one sign in front of its digits |
| `Validation.CheckRequiredFields` | processing/validation/rules.py:55-75 | The loop over the fields reports each blank one, and the payload that is not an object, in order |
| `Validation.RequiredFieldsMeaning` | processing/validation/rules.py:55-75 | The rule reports a missing field exactly when one of the four strips to nothing, and the payload exactly when it is no object |
| `Validation.StripMeaning` | processing/validation/rules.py:205-215 | The strip-based tests mean: made of white space only, and no white space at either end |
| `Validation.AsciiSpaces` | processing/validation/rules.py:205-215 | The space, the tabulator and the line ends are white space, and no printing ASCII character is |
| `Validation.StripExamples` | processing/validation/rules.py:205-215 | Concrete texts: only the white space around them is stripped |
| `Validation.Validate` | processing/validation/engine.py:40-69 | Every rule runs; the outcome is the concatenation of what the rules contribute, a raising rule contributing one failure that names it |
| `Validation.TrustedOnlyIfEveryRulePasses` | processing/validation/engine.py:40-69 | Fail closed: for any rules, an event is trusted exactly when every rule ran to its end and found nothing; and the reported failures are exactly the contributed ones |
| `Validation.ValidMeansTrustworthy` | processing/validation/rules.py:268-279 | The default rules accept an event exactly when identifiers are not blank, symbol is unpadded, payload is an object, side is supported, price and quantity are finite and positive, and both timestamps are aware |
| `Validation.RejectionNamesEveryProblem` | processing/validation/rules.py:55-265 | A rejection names every problem the event has and none it does not have, read off the event directly |
| `Validation.FailuresInOrder` | processing/validation/rules.py:268-279 | The failures of a rejection come in the order of the eight default rules |
| `Validation.BrokenRuleIsNamed` | processing/validation/engine.py:44-54 | A rule that raises contributes the one failure rule_execution_failed under its name, between those of the rules before and after it |
| `Ordering.KeyTotalOrder` | processing/gold/windows.py:103 | The (instant, id) key is a total order: total, antisymmetric, transitive; `KeyLeMeaning` says which |
| `Ordering.KeyLeMeaning` | processing/gold/windows.py:103 | A key comes first exactly when its instant is earlier, or the same with an id no later in a dictionary |
| `Ordering.TextLeMeaning` | processing/gold/windows.py:103 | Ids compare as in a dictionary: one begins the other, or at the first place where they differ its character is less |
| `Ordering.SortIgnoresOrder` | processing/gold/windows.py:103 | A stable sort by a key that tells elements apart depends on what is sorted, not on the order it came in |
| `Aggregation.Accumulate` | processing/gold/windows.py:111-122 | The four accumulators of the loop end as the running sums of quantity, bought, sold and notional, rounded to 28 digits after every operation |
| `Aggregation.AggregateWindow` | processing/gold/windows.py:72-146 | The one-pass method gives the specified row, every operation rounded to 28 digits, or raises on the empty, incomparable, non-finite or volume-free input and on an average price that quantize cannot hold |
| `Aggregation.AggregateIgnoresOrder` | processing/gold/windows.py:103-109 | For events with distinct ids the result is the same on every permutation, errors included |
| `Aggregation.AggregateSums` | processing/gold/windows.py:111-122 | Count, volumes and average are those of the running sums over the sorted events, rounded after every addition; the volume is positive |
| `Aggregation.OneSidedWindows` | processing/gold/windows.py:111-118 | A window of buys alone has bought its whole volume and sold nothing, and the other way round |
| `Aggregation.AggregateDoneIff` | processing/gold/windows.py:97-125 | On any events at all: a row exactly when there are some, their timestamps all carry a timezone or none does, prices and quantities are finite, the total quantity is positive and the average can be quantized |
| `Aggregation.AggregateRaisesData` | processing/gold/windows.py:97-125 | Otherwise the exception is one about data |
| `Aggregation.OpenAndClose` | processing/gold/windows.py:103-106 | Open is the price of an event whose trade timestamp is no later than any other's, at the same microsecond with the id no later in a dictionary; close is the mirror image |
| `Aggregation.HighAndLow` | processing/gold/windows.py:107-109 | High and low are attained by events and bound every price |
| `Aggregation.VwapIsRoundedMeanIff` | processing/gold/windows.py:124-128 | The stored average is a whole number of units, at most half a unit from the quotient of the stored totals, ties up, exactly unless the context lifts that quotient onto a half-way point or takes it down from one |
| `Aggregation.FiguresAreExact` | processing/gold/windows.py:103-128 | While volume and notional have at most 28 digits at their own scales: volumes are plain sums in any order, bought plus sold is the volume, the average is that of the exact sums, and lies between the quantized low and high when those need no more than 28 digits |
| `Aggregation.TrustedTradesAggregate` | processing/gold/windows.py:97-125 | Positive finite aware trades aggregate exactly when the rounded quotient of their rounded totals can be quantized, and the row meets the table constraints and low at most open and close at most high |
| `Aggregation.MeanBetweenPrices` | processing/gold/windows.py:111-128 | The exact quantity-weighted mean of positive trades lies between any bounds on their prices |
| `Aggregation.ModestTradesFit` | processing/gold/windows.py:111-128 | With prices of at most 10^(27 - scale) and quantities of at most 28 digits the average can always be stored, although every operation rounds |
| `Aggregation.FiguresGrow` | processing/gold/windows.py:105-122 | Adding positive trades, anywhere in the order, never lowers the stored count, volumes or high and never raises low: every rounding keeps order |
| `Rounding.RoundedMonotone` | processing/gold/windows.py:111-128 | Rounding to 28 significant digits keeps order and sign |
| `Rounding.RoundedShift` | processing/gold/windows.py:111-128 | It commutes with moving the decimal point |
| `Rounding.ShortIsKept` | processing/gold/windows.py:111-128 | It keeps every number of at most 28 digits at some scale |
| `Rounding.RoundedError` | processing/gold/windows.py:111-128 | Its relative error is at most half a unit of the 28th digit |
| `DecimalContext.AccumulateRounded` | processing/gold/windows.py:111-122 | The loop with 28-digit rounding after every operation computes the specified totals |
| `DecimalContext.RoundingIsExactIff` | processing/gold/windows.py:116-122 | The 28-digit context loses nothing exactly when the digits it drops are all zero |
| `DecimalContext.LoopIsExact` | processing/gold/windows.py:111-122 | A bound to check at once: while volume and notional fit in 28 digits at their own scales, rounding after every operation changes nothing, and bought plus sold is exactly the volume |
| `DecimalContext.FixIsExactIffWritable` | processing/gold/windows.py:116-122 | A result survives the context exactly when 28 digits followed by zeros can write its coefficient |
| `DecimalContext.VolumeIsExactIff` | processing/gold/windows.py:116-122 | The running volume, and that of each side, is exact after every trade exactly when 28 digits and zeros can write the volume of every prefix of the trades |
| `DecimalContext.NotionalIsExactIff` | processing/gold/windows.py:116-122 | Every product and every running notional is exact exactly when 28 digits and zeros can write every product and every prefix sum |
| `DecimalContext.RoundingsCanCancel` | processing/gold/windows.py:116-122 | Why the products are named: two trades whose running notional is exact although the second product is rounded |
| `StoredTotals.LoopComputesTheFigures` | processing/gold/windows.py:111-122 | For all positive trades: the coefficients and exponents of the loop denote, rounding for rounding, the running sums that the stored row is defined by |
| `StoredTotals.FixDenotes` | processing/gold/windows.py:111-122 | One operation: rounding the coefficient half even to 28 digits denotes the rounded value, at any exponent |
| `DecimalContext.SampleVolumeIsRounded` | producer/connectors/dev.py:41-50 | Concrete failure: the first development trade has a 30-digit quantity, and adding it to zero already changes it |
| `DecimalContext.SidesCanDisagree` | processing/gold/windows.py:111-122 | Concrete failure: two trades whose stored volume is larger than bought plus sold |
| `TwoRoundings.ContextVwapBracket` | processing/gold/windows.py:124-128 | A quotient rounded to 28 digits and then quantized still lies between the quantized low and high, when those prices need no more digits |
| `TwoRoundings.ContextVwapError` | processing/gold/windows.py:124-128 | The error of the two roundings is at most half a unit of the last place plus half a unit of the 28th digit |
| `TwoRoundings.TwoRoundingsAgreeIff` | processing/gold/windows.py:124-128 | With digits to spare two roundings give what one would, exactly unless the first lifts the mean onto a half-way point of the second |
| `TwoRoundings.AtStoredScaleIff` | processing/gold/windows.py:124-128 | When the 28th digit is the last stored one, they do exactly unless the mean is half way and its floor is even |
| `TwoRoundings.CoarserRaises` | processing/gold/windows.py:124-128 | When it comes before the last stored one, the quantization raises, as on the exact mean |
| `TwoRoundings.StoredVwapIff` | processing/gold/windows.py:124-128 | Whatever the magnitude: what is stored for an average, exceptions included, is what one exact rounding would store, exactly unless the average fits and is rounded twice |
| `TwoRoundings.RaisesAlike` | processing/gold/windows.py:124-128 | Rounding the quotient first never changes whether its quantization raises |
| `TwoRoundings.StoredVwapRoundsMeanIff` | processing/gold/windows.py:124-128 | A stored average is within half a unit of the quotient of the stored totals, ties up, exactly unless that quotient is rounded twice |
| `TwoRoundings.TwoRoundingsMissTheBound` | common/contracts/gold.py:14-16 | Concrete failure: a mean just below one half is stored as 1 |
| `TwoRoundings.TieGoesToEven` | common/contracts/gold.py:14-16 | Concrete failure at a scale of 23: a tie between 10000 and one unit more is stored as 10000 |
| `TwoRoundings.QuotientIsSignificant` | processing/gold/windows.py:127-128 | The half-even integer quotient of the context is the exact mean rounded to the unit of the last of its digits |
| `TwoRoundings.QuotientIsRounded` | processing/gold/windows.py:127-128 | The half-even integer quotient is what the context makes of the exact quotient |
| `TwoRoundings.FixIsSignificant` | processing/gold/windows.py:116-128 | The context's rounding of a long coefficient is the number it denotes rounded to the unit of its 28th digit |
| `Warehouse.Land` | warehouse/repositories/bronze.py:47-53 | Insert if absent keeps ids distinct, keeps every row in place, and leaves the id present |
| `Warehouse.BronzeRepository.Append` | warehouse/repositories/bronze.py:78-112 | New row only when the id is absent; an append reported as failed has changed nothing or had its whole effect |
| `Warehouse.BronzeRepository.Replay` | warehouse/repositories/bronze.py:114-142 | The page of the rows ordered by (received_at, event_id); bad arguments and failures raise; `ReplayAscends` and `PageRows` say what the page is |
| `Warehouse.ReplayAscends` | warehouse/repositories/bronze.py:59-63 | Earlier received events come first on the page, and at the same microsecond the id that is first in a dictionary |
| `Sequences.PageRows` | warehouse/repositories/bronze.py:59-63 | A page holds the rows from offset on, limit of them while there are so many |
| `Sequences.PagesJoin` | warehouse/repositories/bronze.py:59-63 | Two pages in a row are one |
| `Warehouse.SilverRepository.Append` | warehouse/repositories/silver.py:86-120 | New row only when the event id is absent; an append reported as failed has changed nothing or had its whole effect |
| `Warehouse.SilverRepository.Read` | warehouse/repositories/silver.py:122-150 | The page of the rows ordered by (validated_at, event_id); bad arguments and failures raise; `SilverAscends` says the order |
| `Warehouse.SilverAscends` | warehouse/repositories/silver.py:59-63 | Earlier validated events come first on the page, and at the same microsecond the id that is first in a dictionary |
| `Warehouse.SilverRepository.ReadWindow` | warehouse/repositories/silver.py:181-221 | The events of one symbol in the half-open span, by (trade_timestamp, event_id), at most limit of them; a limit below 1 and failures raise; `WindowQueryAscends` and `WindowQueryIsFirst` say the order and what a limit leaves out |
| `Warehouse.WindowQueryAscends` | warehouse/repositories/silver.py:64-71 | All rows are trades of the symbol from the start to before the end, earlier trades first, at the same microsecond the id that is first in a dictionary |
| `Warehouse.WindowQueryIsFirst` | warehouse/repositories/silver.py:64-71 | What the query leaves out comes no earlier than anything it holds, and only when it holds limit rows |
| `Warehouse.QuarantineRepository.AppendRecord` | warehouse/repositories/quarantine.py:116-160 | One record more, refused when (event_id, quarantined_at) is taken; one reported as failed has changed nothing or had its whole effect |
| `Warehouse.GoldRepository.Upsert` | warehouse/repositories/gold.py:107-134 | The row replaces the one with its window_id and no other; CHECK or UNIQUE violations change nothing; one reported as failed has changed nothing or had its whole effect |
| `Warehouse.AcceptedIffSound` | warehouse/migrations/sql/004_create_gold_market_windows.sql:47-50 | A row is accepted exactly when the table stays sound with it: every row ends after it starts, has high at least low, and is the only one of its symbol and start |
| `Ingestion.KafkaConsumer.Start` | messaging/consumer.py:135-153 | A new connection resumes at the committed offsets; an open one is left as it is |
| `Ingestion.KafkaConsumer.Acknowledge` | messaging/consumer.py:184-209 | Commits offset + 1 for the whole partition; an unconnected commit changes nothing, one reported as failed nothing or exactly that |
| `Ingestion.BronzeIngestionService.Next` | messaging/consumer.py:164-182 | The stream moves the position past undecodable messages and yields the next decodable one with its own offset |
| `Ingestion.BronzeIngestionService.Store` | processing/bronze_ingestion.py:100-126 | Append first, acknowledge second; each failure leaves at once, with or without the effect of the write that failed |
| `Ingestion.BronzeIngestionService.Ingest` | processing/bronze_ingestion.py:73-134 | The loop refines its specification: every message appended before it is acknowledged, up to the maximum, both failure exits; without a started consumer it raises and changes nothing |
| `IngestionProperties.NextEventKeeps` | messaging/consumer.py:164-182 | A fetch keeps every delivery invariant and passes nothing that decodes except the message it returns |
| `IngestionProperties.AppendKeeps` | processing/bronze_ingestion.py:95-113 | A redelivered message changes nothing; a new one extends exactly the appended prefix of its partition |
| `IngestionProperties.AcknowledgeKeeps` | processing/bronze_ingestion.py:114-126 | An acknowledgement commits past the message and leaves nothing decodable uncommitted behind it |
| `IngestionProperties.IngestLoopKeeps` | processing/bronze_ingestion.py:73-134 | Whatever fails, the loop keeps delivery safety and loses nothing; a success with room for every message drains every partition |
| `IngestionProperties.RestartKeeps` | processing/main.py:89-93 | Close and start re-establish the streaming invariant from any safe state, however far the failed connection had read |
| `IngestionProperties.AckSafety` | processing/bronze_ingestion.py:97-131 | Every decodable message below a committed offset is in Bronze, and at most one stored message per partition is uncommitted |
| `IngestionProperties.ExactlyOnceEffect` | processing/bronze_ingestion.py:95-134 | On one partition Bronze is the insert-if-absent fold of the decodable messages up to the appended mark |
| `IngestionProperties.CommittedPastIff` | messaging/consumer.py:60-67 | An undecodable message is committed past exactly when a later decodable message of its partition is |
| `IngestionProperties.RereadIff` | messaging/consumer.py:164-170 | Once the log is read to its end, a restart reads an undecodable message again exactly when no decodable one follows it |
| `Connections.CommitPassesUndecodable` | messaging/consumer.py:60-67 | Concrete trace: acknowledging a message also commits past an undecodable one before it, despite the comment at lines 167-170 |
| `Connections.CoveredAfterCallIff` | processing/bronze_ingestion.py:95-134 | A call leaves nothing unstored behind the position unless its append failed, and then exactly when that message's identity is in Bronze; a failed fetch or commit is harmless |
| `Connections.ContinuingIsSafeIff` | processing/bronze_ingestion.py:95-134 | Before a further call without a restart: every such call leaves all commits stored exactly when no append failed, or its message is in Bronze by identity, or its partition has no further decodable message, or the next one carries the same identity |
| `Connections.UnsafeCall` | processing/bronze_ingestion.py:95-134 | Otherwise a call that meets no fault and takes one message of that partition commits past the unstored one |
| `Connections.RestartCovers` | processing/main.py:89-93 | After close and start nothing behind the position is unstored |
| `Connections.IngestTakesMinimum` | processing/bronze_ingestion.py:73-134 | A successful call takes the smaller of the maximum and the decodable messages left, and needs the stream to end exactly when there are fewer than the maximum |
| `Connections.SkippedWithoutRestart` | processing/bronze_ingestion.py:102-113 | Concrete trace: ingesting again on the same connection after a failed append skips the message, commits past it and never stores it |
| `TrustRouting.TrustRoutingService.ProcessEvent` | processing/validation/service.py:144-185 | Judge, read the clock, then one write to the table the verdict names; a failed write raises and stores nothing |
| `TrustRouting.TrustRoutingService.ProcessBatch` | processing/validation/service.py:104-142 | The routing loop refines its specification, stopping at the first failure with the prefix stored |
| `TrustRouting.TrustSeparation` | processing/validation/service.py:164-185 | Silver ids and Quarantine ids are disjoint, and both tables agree with Bronze on every shared field |
| `TrustRouting.RoutingKeepsSeparation` | processing/validation/service.py:125-142 | Routing any page, wherever it fails, keeps separation and only adds, so a valid event keeps the validated_at of its first success |
| `TrustRouting.SuccessSplitsPage` | processing/validation/service.py:125-142 | A successful batch splits its page into two order-preserving subsequences that together are the page; each valid event is in Silver, each rejected one has exactly one new record |
| `TrustRouting.OutcomesMeaning` | processing/validation/service.py:131-142 | The outcomes a successful batch returns are those of the rejected events, each with its own failures, and no others |
| `TrustRouting.PageStamps` | processing/validation/service.py:164-185 | The ith event of a successful page is stored with the ith reading of the clock, a valid one unless its id was there before |
| `TrustRouting.RoutingRaisesStorage` | processing/validation/service.py:125-142 | A batch raises for storage alone |
| `TrustRouting.FailureRoutedAPrefix` | processing/validation/service.py:126-135 | A batch that fails at event n has stored exactly what routing the first n events stores, and event n too exactly when its write had taken effect although reported as failed |
| `TrustRouting.PageSucceedsIff` | processing/validation/service.py:125-142 | For any clock: a page of distinct events succeeds exactly when none of its writes fails and no rejected event meets its own (event_id, quarantined_at) in the table |
| `BoundedPasses.BatchSucceedsIff` | processing/validation/service.py:104-142 | The same of a whole batch over Bronze, its read included |
| `TrustRouting.StrictClockNeverClashes` | warehouse/repositories/quarantine.py:116-160 | Under a strictly increasing clock a batch succeeds exactly when none of its writes fails: no rejection is refused for its key |
| `TrustRouting.StoppedClockClashes` | warehouse/repositories/quarantine.py:56-59 | Concrete failure: two readings of a clock that stands still make an honest second rejection fail |
| `Gold.GoldProcessingService.ReadEvents` | processing/gold/service.py:172-187 | The targeted query where Silver offers one, the filtered scan of a page otherwise, both up to the cap that `ReadsUpToAMillion` gives |
| `Gold.GoldProcessingService.RecomputeWindow` | processing/gold/service.py:131-170 | Read, then the clock, then aggregate, then upsert; nothing to write for an empty window; each failure leaves at once; `RecomputeFinality` and `RecomputeEffect` say what is stored |
| `Gold.GoldProcessingService.ProcessBatch` | processing/gold/service.py:84-129 | The page's distinct windows by (start, symbol), each recomputed and counted; the first failure ends the batch |
| `GoldProperties.ReadsWholeWindow` | processing/gold/service.py:172-187 | The targeted query and the fallback scan read the same events, each once, when no cap cuts them short |
| `GoldProperties.ReadsUpToAMillion` | processing/gold/service.py:172-187 | A targeted read holds the smaller of 1,000,000 and the number of trusted events of the window; up to 1,000,000 events, of the window or for the scan of all of Silver, every one is read |
| `GoldProperties.ReadModeIsIrrelevant` | processing/gold/service.py:172-187 | So both give the same row |
| `GoldProperties.GroupIsSpan` | processing/gold/service.py:172-187 | For events that lie in the windows they are assigned to, the queried time span is the group of events assigned to the window |
| `GoldProperties.RecomputeEffect` | processing/gold/service.py:131-170 | A recomputation, successful or not, touches one row at most, and only by storing the aggregate of what it read with that instant and finality; a successful one stores what it returns |
| `GoldProperties.RecomputeFinality` | processing/gold/windows.py:57-69 | A recomputed row is final exactly when the one reading of the clock is at or after window start plus window size plus lateness |
| `GoldProperties.KeysOfMeaning` | processing/gold/service.py:112-121 | The candidates are the windows of the page's events, each once |
| `GoldProperties.BatchRewrites` | processing/gold/service.py:108-129 | Whatever fails, every row a batch changes holds the aggregate of a whole read of a window some Silver event names |
| `GoldProperties.BatchRefreshes` | processing/gold/service.py:108-129 | A successful batch brings every window of its page up to date, keeps up to date what was, and returns the number of distinct (symbol, window) pairs |
| `GoldHistory.BatchCounts` | processing/gold/service.py:115-129 | A successful batch counts the distinct windows of its page for which Silver has events to read; a window that all its events escaped is not counted |
| `GoldHistory.EarlierWindowsFirst` | processing/gold/service.py:117-121 | Windows are recomputed by start, then symbol: under a strictly increasing clock the row of an earlier window is computed earlier |
| `GoldHistory.LoopStamps` | processing/gold/service.py:117-121 | The candidate loop reads the clock once for each window, in their order |
| `GoldHistory.BatchKeepsJudged` | processing/gold/windows.py:57-69 | A batch, successful or not, writes no row whose finality is wrong for its computed_at |
| `GoldHistory.PagedRecomputationIsGroupBy` | processing/gold/service.py:108-129 | Over a fixed Silver any successful batches whose pages cover it, in any order and overlapping, leave Gold equal to the plain group-by, whatever stale rows it held |
| `GoldHistory.BatchKeepsSnapshots` | processing/gold/service.py:149-170 | Every row a batch leaves is the aggregate, and the finality judgement, of some earlier state of Silver |
| `GoldHistory.RoutingKeepsSnapshots` | processing/validation/service.py:125-142 | Routing, whatever fails, leaves every Gold row such a snapshot, under a clock that never goes back |
| `GoldHistory.FinalRowIsComplete` | processing/gold/windows.py:57-69 | A final row whose window's events were all validated before end plus lateness is the aggregate of every event the window has |
| `GoldHistory.FinalRowStays` | processing/gold/service.py:149-163 | Recomputing such a row, whatever fails, changes nothing but computed_at, so it stays final |
| `GoldHistory.SnapshotIsCurrentIff` | processing/gold/service.py:149-170 | A stored row has the figures of all of Silver exactly when its trade count is the number of events its window has |
| `GoldHistory.RewriteKeepsFiguresIff` | processing/gold/service.py:149-163 | Final or not, a recomputation that writes keeps the figures exactly when the stored trade count is the number of events of the window |
| `GoldHistory.RewrittenRowGrows` | processing/gold/service.py:149-170 | A rewrite never loses count, volume, bought, sold or range |
| `GoldFaults.TrustedEventsArePositive` | processing/validation/rules.py:78-190 | What the default rules admit to Silver has finite positive price and quantity and an aware timestamp |
| `GoldFaults.TrustedRecomputeSucceedsIff` | warehouse/migrations/sql/004_create_gold_market_windows.sql:47-50 | On trusted events a recomputation succeeds exactly when none of its operations fails, the window ends within the calendar and the average can be stored; its row meets every CHECK and the UNIQUE constraint |
| `GoldFaults.TrustedBatchSucceedsIff` | processing/gold/service.py:84-129 | A well-formed Gold batch over Silver filled through the default rules succeeds exactly when no operation fails and every event of its page has a window within the calendar whose average can be stored |
| `GoldFaults.ModestTradesFitWindows` | processing/gold/windows.py:124-128 | While every price in Silver is at most 10^(27 - scale) and every quantity has at most 28 digits, every window within the calendar can be stored |
| `Pipeline.ProcessingPipeline.RunStages` | processing/pipeline.py:102-129 | The three stages over shared tables refine the specified pass; the first failure ends it and propagates; without a connection nothing happens |
| `Pipeline.ProcessingPipeline.Run` | processing/main.py:89-93 | Start, one pass, close whatever happened: the pass begins at the committed offsets and leaves no connection |
| `Reports.PassReports` | processing/pipeline.py:102-129 | A successful pass reports as ingested the smaller of the batch and the decodable messages left, as validated and quarantined the valid and the rejected events of the page of Bronze, and as gold_windows the distinct windows of the page of Silver that Silver has events for, all of them when events lie in their windows |
| `Reports.ReportsOverAllRuns` | processing/pipeline.py:102-129 | The same of the next run after any history |
| `Reports.OneTradeReport` | processing/pipeline.py:114-119 | One storable trusted trade: ingested 1, validated 1, quarantined 0, gold_windows 1 |
| `Reports.OneRejectedReport` | processing/pipeline.py:114-119 | One rejected event: ingested 1, validated 0, quarantined 1, gold_windows 0 |
| `Reports.ArgumentsIff` | processing/validation/service.py:104-124 | A stage refuses its arguments exactly when the batch is not positive, and then nothing has happened |
| `Reports.GoldArgumentsIff` | processing/gold/service.py:100-106 | A batch over a positive window size refuses its arguments exactly when the offset is negative or the limit is not positive |
| `Runs.RunOnceKeeps` | processing/pipeline.py:102-129 | A pass, wherever it fails, keeps every invariant and only adds to Bronze, Silver and Quarantine |
| `BoundedPasses.OnPageIffRank` | warehouse/repositories/bronze.py:59-63 | The first n rows of the replay order are those with fewer than n rows before them |
| `BoundedPasses.RoutedIff` | processing/validation/service.py:125-142 | After a successful batch a valid Bronze event is in Silver exactly when it was before or fewer than limit rows come before it |
| `BoundedPasses.BatchCoversIff` | processing/validation/service.py:125-142 | A successful batch leaves every valid Bronze event in Silver exactly when those beyond the first limit rows were there already |
| `BoundedPasses.BoundedRunsNeverReach` | processing/pipeline.py:102-129 | A row beyond the first n of the replay order that has not been routed never is, however often passes of at most n are run and whatever arrives |
| `Runs.AckSafetyOverAllRuns` | processing/bronze_ingestion.py:97-131 | In every reachable state: decodable messages below a committed offset are stored, and at most one per partition is stored and uncommitted |
| `Runs.NothingIsEverLost` | messaging/consumer.py:184-202 | However a run continues, by any list of actions, committed offsets never go back and no row of Bronze, Silver or Quarantine changes or disappears |
| `Runs.CommittedPastOverAllRuns` | messaging/consumer.py:60-67 | In every reachable state an undecodable message is committed past exactly when a later decodable one of its partition is; otherwise the next run reads it again |
| `Runs.ExactlyOnceOverAllRuns` | warehouse/repositories/bronze.py:47-53 | In every reachable state Bronze is the insert-if-absent fold of an interleaving of each partition's appended prefix, in log order; on one partition, of the prefix itself |
| `Runs.TrustSeparationOverAllRuns` | processing/validation/service.py:125-142 | In every reachable state Silver and Quarantine are disjoint by id, and every row is a Bronze event judged so by the rules |
| `Runs.FinalityOverAllRuns` | processing/gold/windows.py:57-69 | In every reachable state, whatever the clock did, a row is final exactly when its computed_at is at or after window start plus window size plus lateness |
| `Runs.WatermarkOverAllRuns` | processing/gold/windows.py:57-69 | In every reachable state a final row whose events were in time is the aggregate of every event of its window |
| `RowEvolution.RowEvolvesOverAllRuns` | processing/gold/service.py:149-170 | However a run continues, a row of Gold is still there, its computed_at never goes back, and it grows or, once final and in time, stands still |
| `RowEvolution.FinalRowIsSettled` | processing/gold/service.py:149-163 | However a run continues, a final row whose window gets no late event stays final with the same figures |
| `RowEvolution.RowsOnlyGrow` | warehouse/repositories/gold.py:52-61 | With the default rules, successive versions of a row over a whole run never lose count, volumes or range |
| `EndToEnd.TrustConverges` | processing/validation/service.py:104-142 | After any failed batches, one success over all of Bronze leaves in Silver exactly the valid Bronze events, each once, older rows untouched |
| `EndToEnd.GroupByIgnoresOrder` | processing/gold/windows.py:103-109 | The group-by that Gold is compared with does not depend on the order of the events |
| `EndToEnd.GoldConverges` | processing/gold/service.py:84-129 | One success over all of Silver leaves Gold equal to the group-by of Silver |
| `EndToEnd.PassConverges` | processing/pipeline.py:102-129 | A successful pass at least as large as the log lands every decodable message, and makes Silver and Gold complete |
| `EndToEnd.SuccessShowsWindows` | processing/gold/service.py:108-129 | A batch that succeeds over all of Silver shows that every event there has a window within the calendar |
| `EndToEnd.EndToEndRefinement` | processing/pipeline.py:102-129 | After any run with any failures, one successful processing run whose batch covers the log leaves Gold equal to the group-by of the valid first occurrences of the log, on any number of partitions, if the valid events lie in the windows they are assigned to |
| `EndToEnd.SinglePartitionReference` | processing/pipeline.py:102-129 | On one partition that reference is a function of the log alone |
| `Faults.RunSucceedsIff` | processing/pipeline.py:102-129 | In every reachable state, with default rules and a strictly increasing clock, the next run succeeds exactly when none of its operations fails and every event its Gold stage takes up has a window within the calendar whose average can be stored; for a consumer whose stream ends |
| `Faults.LiveRunSucceedsIff` | processing/main.py:89-93 | With the Kafka consumer, which waits at the end of the log, the next run comes back with success exactly when, in addition, a whole batch of decodable messages is left |
| `Faults.FaultFreeRunSucceedsIff` | processing/pipeline.py:102-129 | One fault-free run whose batch covers the log always lands and routes everything; it succeeds exactly when every valid first occurrence has a window within the calendar whose average can be stored, on one partition a condition on the log; then, if the events lie in their windows, it is complete; otherwise it raises an exception about data. For logs of up to 1,000,000 messages |
| `Faults.OneGoodRunConverges` | processing/pipeline.py:102-129 | From conditions that can be checked beforehand, event by event (modest price and quantity, a window of the calendar around the trade): whatever happened, one fault-free run with a large enough batch succeeds and is complete. For logs of up to 1,000,000 messages |
| `Scenarios.OneTradeMakesItsWindowIff` | processing/pipeline.py:102-129 | The smallest instance: one trustworthy trade that lies in its window, processed without faults, is alone in Silver; the run succeeds exactly when its window is within the calendar and its stored average fits, and Gold then holds its window alone, else nothing |
| `Scenarios.LongPriceNeedsMore` | processing/config/settings.py:37-41 | At a scale of 8 a price of 1E+20 does not fit, and the next smaller price with 8 decimal places does |
| `Scenarios.LongPriceStopsGold` | processing/gold/windows.py:124-128 | Concrete failure: one trade at 1E+20 passes every rule and makes a fault-free run raise in its Gold stage |
| `Scenarios.RoundedProductStopsGold` | processing/gold/windows.py:116-128 | Concrete failure although the price fits: two units at 99999999999999999999.99999999, whose product is rounded up, make a fault-free run raise in its Gold stage |
| `Scenarios.LastMinuteStopsGold` | processing/gold/service.py:149 | Concrete failure: a trade of the last minute of the year 9999 passes every rule, and its window ends beyond the calendar |
| `Scenarios.LateTradeChangesFinalRow` | processing/gold/windows.py:57-69 | Concrete failure of finality: a late trade reaches Silver and the next recomputation of a final row counts one trade more |
| `Coinbase.CoinbaseConnector.Connect` | producer/connectors/coinbase.py:139-151 | A connected connector is left alone; otherwise stop is cleared and the state is connected only if the opening succeeds |
| `Coinbase.CoinbaseConnector.Disconnect` | producer/connectors/coinbase.py:153-158 | Requests a stop, drops the socket, and is disconnected |
| `Coinbase.CoinbaseConnector.Reconnect` | producer/connectors/coinbase.py:160-167 | Closes, reopens with a fresh subscription; a failed opening leaves the state reconnecting |
| `Coinbase.CoinbaseConnector.Stream` | producer/connectors/coinbase.py:169-226 | The nested loops refine the specified trace of receipts, yields, waits, suspensions and ending, and end by the measure (frames left, attempts left) |
| `CoinbaseProperties.StreamFilters` | producer/connectors/coinbase.py:180-205 | Whatever the consumer calls meanwhile, the yields are the match frames received, in order; nothing is received after an error frame, and the stream ends in a protocol error exactly when it received one |
| `CoinbaseProperties.ReceivesInOrder` | producer/connectors/coinbase.py:169-226 | Whatever the consumer calls, the frames received are an in-order subsequence of those on the current socket and the connections to come |
| `CoinbaseProperties.PassiveStreamIsReference` | producer/connectors/coinbase.py:169-226 | With nobody calling, frames received and ending equal a connection-by-connection reference: everything sent, until an error frame, a refused reopening, or one more drop in a row than the budget |
| `CoinbaseProperties.ReferenceIsInOrder` | producer/connectors/coinbase.py:169-226 | The reference skips and reorders no frame, and ends only in an error or an exhausted budget while every connection is accepted |
| `CoinbaseProperties.BackoffIsDisciplined` | producer/connectors/coinbase.py:206-226 | The nth drop in a row waits exactly the nth delay, a received frame clears the count, the budget is never exceeded, and giving up means it is used up |
| `CoinbaseProperties.DelayGrows` | producer/connectors/coinbase.py:265-277 | Delays never decrease and never exceed the cap |
| `CoinbaseProperties.DelayDoubles` | producer/connectors/coinbase.py:265-277 | The first delay is the base and each later one twice the one before, all up to the cap |
| `CoinbaseProperties.TotalDelayBounded` | producer/connectors/coinbase.py:265-277 | n delays in a row total at most base * (2^n - 1) and at most n * cap |
| `CoinbaseProperties.WaitsBetweenFrames` | producer/connectors/coinbase.py:206-226 | In every stream, between two received frames there are at most max_reconnect_attempts waits, totalling at most those bounds |
| `CoinbaseProperties.OpenKeepsLive` | producer/connectors/coinbase.py:240-254 | Each successful opening sends exactly one subscription, on its own socket; a failed one sends none |
| `CoinbaseProperties.CallKeepsLive` | producer/connectors/coinbase.py:139-167 | Every public call keeps: connected means a live socket, the one the last subscription was sent on |
| `CoinbaseProperties.ConnectedMeansLive` | producer/connectors/coinbase.py:180-226 | The same at every yield, every backoff and at the end of every stream, so the missing-socket error inside the loop never happens |
| `CoinbaseProperties.StopIsPrompt` | producer/connectors/coinbase.py:185-188 | After a stop request the stream ends without another yield or wait |
| `CoinbaseProperties.DisconnectEndsStream` | producer/connectors/coinbase.py:153-226 | When the consumer's calls at any suspension, a yield or a backoff, end in disconnect, that suspension is the last, no frame is received and nothing opened after it, and the stream ends stopped |
| `CoinbaseProperties.DisconnectStops` | producer/connectors/coinbase.py:153-158 | Disconnect requests a stop, drops the socket and opens nothing |
| `CoinbaseProperties.StopOutlivesReconnect` | producer/connectors/coinbase.py:160-188 | After disconnect, with or without reconnect, a stream receives nothing |
| `CoinbaseProperties.ConnectStreamsAgain` | producer/connectors/coinbase.py:139-190 | After disconnect and connect, on a connection the exchange accepts, the stop request is gone, a fresh subscription is sent, and the stream receives the first frame sent |
| `CoinbaseProperties.StateAfterOpening` | producer/connectors/coinbase.py:139-167 | A refused opening leaves connect connecting and reconnect reconnecting; an accepted one makes it connected |
| `CoinbaseProperties.ConnectIsIdempotent` | producer/connectors/coinbase.py:139-151 | Connect on a connected connector opens nothing |
| `CoinbaseProperties.NotConnectedRaises` | producer/connectors/coinbase.py:169-180 | A stream on a connector that is not connected raises at once |

## Left out

- Ingestion.BronzeIngestionService.Next: ends at the end of the log, where the Kafka consumer waits for more; `Connections.IngestTakesMinimum` says which calls depend on it.
- Faults.OneGoodRunConverges: assumes a consumer whose stream ends, as the `Consumer` interface allows, when the batch asks for more messages than are left; so does Faults.FaultFreeRunSucceedsIff. `LiveRunSucceedsIff` is about one that waits.
- Aggregation.FiguresAreExact: is a bound on the totals; whether a row beyond it happens to be exact is decided operation by operation by `RoundingIsExactIff`.
- Aggregation.ModestTradesFit: is sufficient; the exact condition is `VwapFits`, the rounded quotient of the rounded totals.
- DecimalContext.NotionalIsExactIff: counts the products among the results; a sum alone can be exact after a rounded product, as `RoundingsCanCancel` shows.
- CoinbaseProperties.PassiveStreamIsReference: is for a consumer that makes no calls; with calls, `ReceivesInOrder`, `StreamFilters`, `BackoffIsDisciplined` and `ConnectedMeansLive` hold.
- Decimal exponents beyond the context's range (a million), where sums and products raise too; a PostgreSQL NUMERIC holds no such number.
- A lateness of 2^34 seconds (544 years) or more, where the double in `is_final_for` could round the elapsed time.
- Storage: a statement takes effect as a whole or not at all, whatever it reports.
- Broker: one consumer, no rebalancing; starting it always succeeds; it serves any partition next.
- Decoding is a given function from a message to an event or nothing; `messaging/codec.py` and the pydantic layer are not modelled.
- Instants are whole microseconds, as a `datetime` holds them.
- Text is compared by code point; a PostgreSQL collation may order it otherwise.
- Validation failures carry rule and code, not their message texts or fields; a payload is an object or not.
- `DataError` stands for every exception about data: `ValueError`, `TypeError`, `InvalidOperation`, `OverflowError`, a rejected contract.
- Coinbase: the consumer's calls happen at yields and backoff sleeps; a closed socket delivers nothing more; waiting takes exactly the delay, as a real number; a failed closing is ignored as in the source.
- Signals, health server, logging, settings, factories and entry points are plumbing around these loops.
- `schemas` row mappings, `get`, `latest_by_symbol`, `list_symbols`, `read_rejected` and `QuarantineRepository.append` are field copies or queries evaluated by PostgreSQL.
- Migrations, and the content of preparation beyond the development feed's identity.
- Runs that change window size, lateness, scale or rules between passes: a window id does not name its size.
