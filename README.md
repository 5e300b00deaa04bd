# Game-event pump and movement-cost tables, modelled in Dafny

This project models two parts of the JA2 Stracciatella game engine.

**The game-event pump** (`event_pump.dfy`, module `EventPump`). Gameplay code does not act
right away. It enqueues events such as "find a new path", "turn", "fire", "weapon hit" or
"noise", and the pump runs them once per game cycle. The pump keeps three queues of event
records: primary, secondary (delayed) and demand. Each record holds a time stamp, a delay, an
expired flag and a payload.

- `AddGameEvent` sends an event with the demand sentinel delay to the demand queue with delay 0.
  Any other event goes to the primary queue.
- `DequeAllGameEvents` drains the primary queue from its head. A zero-delay record is run. A
  delayed record is re-stamped with the clock and moved to the secondary queue.
- It then scans the secondary queue once. It runs every record whose elapsed time is strictly
  greater than its delay, and marks that record expired in place.
- Finally it removes expired records one at a time, always restarting the scan from the front.
- `DequeueAllDemandGameEvents` drains the demand queue in the same way.
- `ClearEventQueue` throws away the primary queue without running anything.
- Running a record (`ExecuteGameEvent`) is a closed match over the six event kinds. The four
  soldier-addressed kinds first check three things: the soldier index is in range, the slot is
  active, and the slot's unique id still equals the one in the event. If any check fails, the
  event is dropped silently.

The pump is the class `Pump`. Its three queues are `seq` fields that its methods reassign. The
gameplay handlers are outside the model: a handler call is a `HandlerCall` value appended to
the ghost field `trace`. The clock reading is the parameter `now`. The soldier table is the
parameter `roster`, and its length stands for `TOTAL_SOLDIERS`. What each drain does is stated
by functions of the old queue contents: `Promoted`, `Immediate`, `DueCalls`, `ExpireDue`,
`Live` and `Waiting`. The lemmas beside them prove these facts:

- zero-delay records run in FIFO order;
- a record promoted at tick `t` is not due at `t`;
- the removal loop leaves exactly the records that were not due, in their original order.

The class invariant `Pump.Valid()` has two parts: no secondary record is marked expired between
drains, and every demand record has delay 0. The constructor establishes it and every operation
keeps it. The drains do not require it: each one states its effect on any state, and states the
simpler form when the invariant held before the call.

`DelayedPathScenario` is a client of the pump. It follows a path request delayed by 5 ticks at
tick 100: the request is promoted, is still waiting at tick 104, and runs once at tick 106.

**The movement-cost tables** (`movement_costs.dfy`, module `MovementCosts`). `deserialize`
reads four grids from a JSON document. First it builds a name-to-number table from the document's
`mapping` object. It reads `traverseWE` (16 rows by 17 columns), `traverseNS` (17x16) and
`traverseThrough` (16x16) as names passed through that table. It reads `travelRatings` (16x16) as
integers. Each cell is a `uint8_t`, and the model writes the C++ narrowing out as `ToUint8`.
The loader fails in these cases:

- a member is missing;
- a name has no entry in the table (`mapping.at` throws);
- a row has the wrong number of columns;
- a grid has the wrong number of rows.

The JSON document is the datatype `Document`. Its grids are `seq<seq<string>>` or
`seq<seq<int>>`, and the `mapping` object is its list of members. The loaded model is the
datatype `MovementCostsModel`. Its datatype constructor stores the four grids exactly as given,
which is what the C++ constructor does. The four accessors are member functions. Each one takes the
source's bounds check as a precondition and reads only its own grid. `AccessorBounds` proves that each check admits exactly
the cells of its grid, and `Deserialize` states what each accessor returns after a load.

## Model

| member | source | states |
|---|---|---|
| `EventPump.GetSoldier` | src/game/Utils/Event_Pump.cc:201-206 | Yields a soldier exactly when the index is below `TOTAL_SOLDIERS` and that slot is active; the soldier yielded is that slot. |
| `EventPump.Dispatch` | src/game/Utils/Event_Pump.cc:214-317 | Calls exactly one handler, the one for the event's kind with the event's fields, when the event is admitted. Admitted means: an unchecked kind, or an in-range, active soldier whose unique id matches. Otherwise no handler runs. |
| `EventPump.StaleTargetDropped` | src/game/Utils/Event_Pump.cc:218-303 | For GetNewPath, SetDesiredDirection, BeginFireWeapon and FireWeapon, no handler runs if and only if the index is out of range, the slot is inactive, or the unique id differs. |
| `EventPump.Elapsed` | src/game/Utils/Event_Pump.cc:142 | Elapsed time is the unsigned 32-bit difference of clock readings: the plain difference when the clock has not wrapped, the difference plus 2^32 when it has. |
| `EventPump.Promoted` | src/game/Utils/Event_Pump.cc:121-125 | The records a drain moves to the secondary queue are stamped with the current clock, keep a non-zero delay and are not expired; there are at most as many as were drained. |
| `EventPump.PromotedMembers` | src/game/Utils/Event_Pump.cc:121-125 | A record is promoted if and only if some drained record has a non-zero delay and the promoted record is that record's delay and payload, re-stamped with the current clock and not expired. |
| `EventPump.PromotedOfDelayed` | src/game/Utils/Event_Pump.cc:116-132 | When every drained record is delayed, all of them are promoted in queue order: promoted record i carries record i's delay and payload, re-stamped and not expired. |
| `EventPump.ExpireDue` | src/game/Utils/Event_Pump.cc:135-147 | The secondary scan removes nothing: record `i` afterwards is record `i` before, marked expired exactly when it was due. |
| `EventPump.DrainStep` | src/game/Utils/Event_Pump.cc:118-131 | Taking the next head record adds it, re-stamped, to the promoted records when its delay is non-zero, and adds its dispatch to the calls when its delay is zero. |
| `EventPump.LiveRemove` | src/game/Utils/Event_Pump.cc:161-166 | Erasing an expired record at any position leaves the sequence of unexpired records unchanged. |
| `EventPump.LiveOfNoneExpired` | src/game/Utils/Event_Pump.cc:149-169 | Once a full scan finds no expired record, the queue equals its unexpired records. |
| `EventPump.LiveAfterExpire` | src/game/Utils/Event_Pump.cc:135-169 | For a queue with no expired record, marking the due ones and then removing the expired ones leaves exactly the not-due records in their original order. |
| `EventPump.WaitingMembers` | src/game/Utils/Event_Pump.cc:149-169 | A record remains in the secondary queue if and only if it was there and was not due. |
| `EventPump.WaitingBounds` | src/game/Utils/Event_Pump.cc:149-169 | The remaining records are no more than before, none of them is due, and none is expired when none was before. |
| `EventPump.NothingDue` | src/game/Utils/Event_Pump.cc:141-146 | When no record is due, the scan keeps every record and calls no handler. |
| `EventPump.PromotedNotDue` | src/game/Utils/Event_Pump.cc:122-124 | A record promoted during a cycle is not due in the same cycle: its delay counts from promotion, and it stays queued without running. |
| `EventPump.ZeroDelayAllImmediate` | src/game/Utils/Event_Pump.cc:184-192 | A demand queue whose records all have delay 0 promotes nothing and runs every record in order. |
| `EventPump.DispatchAllInOrder` | src/game/Utils/Event_Pump.cc:116-132 | When every record is admitted, each one's handler runs exactly once, in queue order. |
| `EventPump.Pump.constructor` | src/game/Utils/Event_Pump.cc:30-32 | The three queues start empty and no handler has run. |
| `EventPump.Pump.AddEvent` | src/game/Utils/Event_Pump.cc:38-46 | Appends one record at the tail of the chosen queue: stamped with the clock, with the given delay and payload, not expired. The other queues and the trace do not change. |
| `EventPump.Pump.RemoveEvent` | src/game/Utils/Event_Pump.cc:49-60 | Returns the record at the index and deletes only it, keeping the order of the rest. An index past the end returns nothing and changes nothing. Other queues do not change. |
| `EventPump.Pump.PeekEvent` | src/game/Utils/Event_Pump.cc:63-66 | Returns the record at an in-range index of the chosen queue without changing anything. |
| `EventPump.Pump.AddGameEvent` | src/game/Utils/Event_Pump.cc:96-106 | A delay equal to `DEMAND_EVENT_DELAY` appends to the demand queue with delay 0; any other delay appends unchanged to the primary queue. The secondary queue does not change, and the class invariant is kept. |
| `EventPump.Pump.ExecuteGameEvent` | src/game/Utils/Event_Pump.cc:214-317 | Appends the dispatcher's handler call, if any, to the trace and changes nothing else. |
| `EventPump.Pump.TakeHead` | src/game/Utils/Event_Pump.cc:116-132 | Removes the head record; appends it, re-stamped, to the secondary queue when its delay is non-zero, otherwise runs it. |
| `EventPump.Pump.DrainFromHead` | src/game/Utils/Event_Pump.cc:179-195 | Empties the queue it drains and leaves the other head-drained queue alone. The delayed records are appended to the secondary queue in order, and the zero-delay records are run in order. |
| `EventPump.Pump.ExpireDueEvents` | src/game/Utils/Event_Pump.cc:134-147 | Runs each due record once, in order, marks it expired in place and leaves records that are not due untouched. |
| `EventPump.Pump.RemoveExpiredEvents` | src/game/Utils/Event_Pump.cc:149-169 | When the restart-from-front loop ends, no expired record is left, and the queue is exactly its old unexpired records in their old order. |
| `EventPump.Pump.DequeAllGameEvents` | src/game/Utils/Event_Pump.cc:110-172 | Never fails. The primary queue ends empty and the demand queue is untouched. The calls are the zero-delay primary records, then the due secondary records, in order. Afterwards no secondary record is expired. When the class invariant held, the secondary queue becomes its not-due records followed by the newly promoted ones, and the invariant still holds. |
| `EventPump.Pump.DequeueAllDemandGameEvents` | src/game/Utils/Event_Pump.cc:175-198 | Never fails. It empties only the demand queue and leaves the primary queue unchanged. Delayed demand records would be promoted and zero-delay ones run. When the class invariant held (all demand delays are 0), the secondary queue is unchanged and every demand record runs, in FIFO order. |
| `EventPump.Pump.ClearEventQueue` | src/game/Utils/Event_Pump.cc:320-331 | Never fails. It empties the primary queue without running any record, and leaves the secondary and demand queues unchanged. |
| `MovementCosts.ToUint8` | src/externalized/strategic/MovementCostsModel.cc:96 | Converting to `uint8_t` keeps the value modulo 256 and leaves values in 0..255 as they are. |
| `MovementCosts.ReadTraversibilityIntoVector` | src/externalized/strategic/MovementCostsModel.cc:74-87 | Succeeds if and only if there are exactly `expectedRows` rows of exactly `expectedCols` names, all of them in the mapping. On success cell (i, j) is the mapping of the name at row i, column j. Each error names the first failing check in reading order. |
| `MovementCosts.ReadIntIntoVector` | src/externalized/strategic/MovementCostsModel.cc:89-102 | Succeeds if and only if there are exactly `expectedRows` rows of `expectedCols` integers. On success cell (i, j) is input (i, j) converted to `uint8_t`. Each error names the first row with the wrong length, or the row count. |
| `MovementCosts.MappingOfKeys` | src/externalized/strategic/MovementCostsModel.cc:44-48 | The name table has a key exactly for each member name of the `mapping` object. |
| `MovementCosts.MappingOfFirstWins` | src/externalized/strategic/MovementCostsModel.cc:45-48 | A name maps to the `uint8_t` value of its first member, because `insert` keeps an existing key. |
| `MovementCosts.MovementCostsModel.TraversibilityWestEast` | src/externalized/strategic/MovementCostsModel.cc:17-21 | Returns the west-east cell at row y, column x of `traverseWE`. It demands the assertion's bounds (y < 16, x <= 16) and a cell at that index in `traverseWE` only, not the shape of the other grids. |
| `MovementCosts.MovementCostsModel.TraversibilityNorthSouth` | src/externalized/strategic/MovementCostsModel.cc:23-27 | Returns the north-south cell at row y, column x of `traverseNS`. It demands the assertion's bounds (y <= 16, x < 16) and a cell at that index in `traverseNS` only. |
| `MovementCosts.MovementCostsModel.TraversibilityThrough` | src/externalized/strategic/MovementCostsModel.cc:29-33 | Returns the cell at row y, column x of `traverseThrough`. It demands the assertion's bounds (y < 16, x < 16) and a cell at that index in `traverseThrough` only. |
| `MovementCosts.MovementCostsModel.TravelRating` | src/externalized/strategic/MovementCostsModel.cc:35-39 | Returns the cell at row y, column x of `travelRatings`. It demands the assertion's bounds (y < 16, x < 16) and a cell at that index in `travelRatings` only. |
| `MovementCosts.AccessorBounds` | src/externalized/strategic/MovementCostsModel.cc:17-39 | In a model of the loaded shape, each accessor's bounds check admits exactly the cells of its grid: 16x17 for west-east, 17x16 for north-south, 16x16 for the other two. |
| `MovementCosts.Deserialize` | src/externalized/strategic/MovementCostsModel.cc:41-72 | Succeeds if and only if all members are present and each grid has its exact shape with only known names. On success the grids are the decoded inputs, in row and column order. Each accessor returns the decoded input cell at row y, column x. A missing `mapping`, then a missing `traverseWE`, is reported as such. |

## Left out

- The gameplay handlers (`EVENT_GetNewSoldierPath`, `EVENT_SetSoldierDesiredDirection`, `EVENT_FireSoldierWeapon`, `FireWeapon`, `WeaponHit`, `OurNoise`) are outside the model. A call to one is recorded as a `HandlerCall` in the trace.
- The writes of the target grid, level and cube level into the soldier before the two fire handlers are not modelled. Those values are carried in the recorded `HandlerCall` instead.
- Logging (`SLOGD`, `SLOGE`) is left out.
- Handlers that enqueue new events during a drain are not modelled. The loop at src/game/Utils/Event_Pump.cc:116 reads the queue size on every pass, so in the code such events run in the same drain, not in the next one. The model does not capture either behaviour, because the queues change only through the drain itself.
- The soldier table is a fixed parameter during a drain, so a handler that kills or recycles a soldier mid-drain is not modelled.
- The clock is read once per call (`now`), not once per record as with `GetJA2Clock()`. UINT32 wrap-around of the elapsed time is modelled.
- Records are values, not heap objects. `new`, `delete` and `FreeEvent` therefore have no counterpart.
- `PeekEvent` cannot return a null pointer, so the null checks at lines 139 and 155 are not modelled.
- `RemoveEvent`: an out-of-range index is undefined behaviour in C++, because `operator[]` does not throw. The model takes the catch path instead: no record is returned and the queue is unchanged. The drains never use such an index, so they always return success.
- `EventQueueSize` and `GetQueue` are the length of `Pump.Queue(q)` and `Pump.Queue(q)` itself.
- `DEMAND_EVENT_DELAY` and `TOTAL_SOLDIERS` are declared in headers that are not part of this model. The sentinel is taken as 0xFFFF, and `TOTAL_SOLDIERS` is the length of the roster.
- The widths of the payload fields come from a header that is not part of this model, so they are plain integers.
- The `WeaponHit` and `Noise` arms look up their soldiers without any check (`GetMan`, `ID2SOLDIER`). The model records their ids as given.
- JSON parsing (rapidjson) is left out: the document arrives already typed. A cell of the wrong JSON type (a failed `GetString` or `GetInt`) is not modelled.
- `Deserialize`: failures after `traverseWE` are stated only as "fails if and only if not loadable"; the exact error is stated by the two readers. `new MovementCostsModel` is a value.
- `MovementCostsModel.getTraversibility*` and `getTravelRating`: a failed `Assert` aborts the program, so the model makes it a precondition. Indexing outside the stored grid is undefined behaviour in C++, so the model also requires the cell to exist in the grid being read. `AccessorBounds` shows that for a loaded model the assertion alone guarantees this.
- src/game/TileEngine/WorldDat.cc is not part of this model: it is binary file reading and a constant table.
- android/app/src/main/java/io/github/ja2stracciatella/LauncherActivity.kt is not part of this model: it is Android UI and file I/O.
- src/externalized/VehicleModel.h is not part of this model: it holds declarations only.
