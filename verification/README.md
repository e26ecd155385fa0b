# Verification model of Tally's algorithmic and protocol kernels

Tally is a shop system: a Go server and a web client. Most of it is forms and tables. This
project models the parts where the logic is not obvious and proves what they promise. Each
module follows one part of the repository:

| module | part |
|---|---|
| Bits, Gf256, ReedSolomon, QrCapacity, QrCodewords, QrLayout, QrInfo, QrMatrix | the QR encoder |
| QrStandard, QrReader | the pictures and tables of ISO/IEC 18004, and a reference reader that knows only them |
| Idempotency, SubmitKey | the idempotency middleware over a key-value store, and the client's key holder |
| CashierPin | the PIN lockout |
| DevOrg | the organization membership stand-in |
| UsageReport, UsageWorkers | metered-usage delivery to the deduplicating ledger |
| EventAudit | the event outbox, the stream, and the audit log |
| Crc32 | the PNG chunks and their CRC |
| MoneyCn | capital Chinese numerals |
| Streaks, Assumptions | the kill-switch streak evaluator and its table parser |
| CustomerAlias, AliasTables, GoStrings | address forms of regulars in a message |
| Calendar | the calendar ranges and the as-of periods |
| Wrappers | notions several modules share |

Code that changes state step by step is a class or a method with loops, proved against a
function; the promises are then proved about that function for every input. Protocols are state
machines whose events interleave freely; store calls, posts and publishes may take effect and
still report an error (`Fault(landed)`, `LostReply`). A run is a sequence of enabled events, and
the lemmas about runs speak of every run of every length.

## Where the code and a promise part

- Other members' PIN attempts can change a member's verdicts, although the comment at
  internal/app/account/cashier_mode.go:83-84 rules it out: the sweeper runs at most once a minute
  for everybody, so a colleague's attempt can keep a stale count alive. `OthersMatterExactly`
  gives the exact condition and `ColleagueKeepsFailures` a run.
- The middleware does not run a handler exactly once (`RunsTwice`): the unlock comes before the
  cache write. `HandlerRunsExactly` says exactly when a handler runs: its lookup came before every
  2xx answer to its key was stored, or the cache TTL after, and its lock attempt met nobody between
  lock and unlock (`MissExactly`, `AcquireExactly`).
- A raw key that is another key followed by ":lock" shares a store entry with the other key's lock:
  a stored answer is lost (`AliasForgets`), or a request refused for nothing (`AliasRefuses`).
- The fingerprint separates method, path and body by NUL bytes, but a decoded path can hold one.
  Two different requests can then share a fingerprint, and a replay can answer one with the
  other's response. `FingerprintExactly` gives the exact condition, `CollidingPair` an instance,
  `CollisionIsReplayed` the run; without NUL in the paths it cannot happen.
- The reads and the write of a membership operation are separate statements without a transaction,
  and the two statements of DissolveOrg see separate snapshots at the default isolation level. One
  owner or nobody holds if and only if an invite is inserted only while its organization has a
  member and the last member is removed only while no invite is pending (`OneOwnerOrNobody`,
  `RemovalExactly`); the source guards neither (`OwnerlessOrg`, `DissolveRace`).
- For the same reason an admin can demote another admin (`AdminDemotedByAdmin`). The rule that only
  the owner touches an admin holds for a write if and only if it was not allowed to an admin on a
  stale reading of the row (`AdminRuleExactly`, `AdminsOverRuns`).
- The exhausted alert of the usage retry is lost with the reply to the tenth recorded error, and
  doubles when two workers drained the row (`LostReplyLosesTheAlert`, `TwoWorkersAlertTwice`).
  `AlertFiresExactlyOnce` and `OneWorkerAlertsOnce` say exactly when it fires once.
- The comment at internal/adapter/repo/event_outbox/store.go:67-70 says that no two drains publish
  the same row in the same cycle. The drain commits before anything is published, so they can
  (`TwoWorkersPublishTwice`). `AtMostOnceExactly` says exactly when a row is in the stream at most
  once, `PublishedAtMostOnce` what the lock would have to exclude; the audit log stays deduplicated.
- The guard at internal/adapter/usagereport/reporter.go:150 asks that one count be positive, not
  that they add up to a billable amount. An event whose counts add up to zero can be billed as 0
  (`ZeroIsBilled`); one whose counts add up to less is refused by the platform's contract for ever,
  exhausts its retries and is never billed (`NegativeNeverBilled`, `RefundExhausts`). Amounts are
  positive exactly when the sum is (`PositiveAmounts`).
- The evaluator counts readings, not calendar days: a day without a reading neither counts nor
  resets, as its own comment says.

## Model

| member | source | states |
|---|---|---|
| Gf256.GfMul | web/lib/qr.ts:25-32 | The eight-round loop computes the product `Mul`, whose laws the next rows give. |
| Gf256.MulIsProductModulo | web/lib/qr.ts:25-32 | `gfMul(x, y)` differs from the carry-less product of x and y by a carry-less multiple of 0x11d: it is the product modulo that polynomial. |
| Gf256.MulComm | web/lib/qr.ts:25-32 | `gfMul` is commutative. |
| Gf256.MulAssoc | web/lib/qr.ts:25-32 | `gfMul` is associative. |
| Gf256.MulAddLeft | web/lib/qr.ts:25-32 | `gfMul` distributes over exclusive-or in its first argument. |
| Gf256.MulAddRight | web/lib/qr.ts:25-32 | `gfMul` distributes over exclusive-or in its second argument. |
| Gf256.AlphaDistinct | web/lib/qr.ts:37-43 | The first 255 powers of 2, the roots `rsDivisor` walks through, are pairwise distinct. |
| Gf256.Log | web/lib/qr.ts:25-43 | Every non-zero byte is a power of 2 below 255, so 2 generates the field. |
| Gf256.NoZeroDivisors | web/lib/qr.ts:25-32 | A product is zero only when a factor is. |
| Gf256.Inverse | web/lib/qr.ts:25-32 | Every non-zero byte has a multiplicative inverse: the bytes are a field. |
| ReedSolomon.RsDivisor | web/lib/qr.ts:34-46 | The in-place double loop leaves the low coefficients of the generator polynomial of the given degree. |
| ReedSolomon.GeneratorIsProduct | web/lib/qr.ts:34-46 | As a function, the generator is the product of (x - 2^i) for i below its degree. |
| ReedSolomon.RootProductZero | web/lib/qr.ts:34-46 | That product is zero exactly at the powers 2^0 to 2^(d-1). |
| ReedSolomon.GeneratorMonic | web/lib/qr.ts:34-46 | The generator has leading coefficient 1, which is why the array may leave it out. |
| ReedSolomon.RsRemainder | web/lib/qr.ts:48-58 | The shift-and-add loop computes the remainder of the next rows. |
| ReedSolomon.DivisionLaw | web/lib/qr.ts:48-58 | data·x^d plus the remainder equals quotient times divisor at every point, for data of any length and any divisor. |
| ReedSolomon.EncodedBlockVanishes | web/lib/qr.ts:34-58 | A block followed by its error correction bytes vanishes at every root of the generator. |
| ReedSolomon.EncodedBlocksFarApart | web/lib/qr.ts:34-58 | Blocks of one length (at most 255 in all) with different data differ, with their error correction bytes, in more than d places: the code corrects any d/2 errors. |
| QrCapacity.Table | web/lib/qr.ts:7-23 | `rawModules` and `dataCodewords` take the values of the capacity table of ISO/IEC 18004 for versions 1 to 10, level L. |
| QrCapacity.Shares | web/lib/qr.ts:102-106 | Short and long blocks share out exactly the data codewords, and with error correction exactly the raw codewords. |
| QrCapacity.BlockTable | web/lib/qr.ts:7-23 | Blocks, data codewords of a short block and error correction codewords of each version are those of Table 9 of ISO/IEC 18004 for level L. |
| QrCapacity.ChooseVersion | web/lib/qr.ts:126-134 | The loop returns the smallest version the bytes fit, and fails exactly for more than 271 bytes. |
| QrCapacity.CapacityLimit | web/lib/qr.ts:2-4 | Some version fits n bytes exactly when n is at most 271. |
| QrCapacity.CapacityTable | web/lib/qr.ts:126-134 | n bytes fit a version exactly up to the byte capacity of Table 7 for level L. |
| QrCapacity.CountFits | web/lib/qr.ts:89 | A length that fits its version also fits the 8- or 16-bit count field. |
| QrCodewords.BuildCodewords | web/lib/qr.ts:83-123 | The whole method computes `Codewords`, which the reader of the next rows inverts. |
| QrCodewords.BuildStream | web/lib/qr.ts:84-93 | Mode, count, bytes, terminator and bit padding: the bit stream the specification gives. |
| QrCodewords.AddPads | web/lib/qr.ts:100 | Alternating pads 0xec and 0x11 fill exactly up to the data codewords. |
| QrCodewords.BuildBlocks | web/lib/qr.ts:108-115 | Every block gets its slice of the data, a filler if it is short, and its error correction bytes. |
| QrCodewords.Interleave | web/lib/qr.ts:116-121 | The two loops write the blocks column by column without the fillers. |
| QrCodewords.RowsAt | web/lib/qr.ts:116-121 | The loops put byte i of block j at the place `Position` gives it. |
| QrCodewords.PositionIs | web/lib/qr.ts:116-121 | That place is i times the number of blocks plus j, less the blocks that have no byte there: column by column, the fillers left out, as in section 7.6 of ISO/IEC 18004. |
| QrCodewords.BlockStartClosed | web/lib/qr.ts:107-115 | Block j starts behind j short blocks and a byte more for each long one among them. |
| QrCodewords.DataFilled | web/lib/qr.ts:90-100 | Behind the bytes come at most four terminator bits, zeros up to a codeword, and 236 and 17 in turn, as sections 7.4.9 and 7.4.10 ask. |
| QrCodewords.ReadDataBack | web/lib/qr.ts:84-100 | Unpacking mode, count and bytes from the padded data codewords, and checking the filling behind them, returns the input. |
| QrCodewords.DecodeBack | web/lib/qr.ts:83-123 | De-interleaving and unpacking the codewords of any bytes that fit returns the bytes. |
| QrCodewords.SyndromesVanish | web/lib/qr.ts:107-115 | Every block read back from the output vanishes at every root of its generator. |
| QrCodewords.BlocksFarApart | web/lib/qr.ts:107-115 | Blocks of two symbols of a version that carry different data differ in more than the number of error correction bytes. |
| QrLayout.ComputeAlignmentPositions | web/lib/qr.ts:60-68 | The splice loop computes the alignment centres. |
| QrLayout.AlignmentTable | web/lib/qr.ts:60-68 | Those are the centres of ISO/IEC 18004 for versions 1 to 10. |
| QrLayout.FreeCount | web/lib/qr.ts:11-19 | The modules that belong to no function pattern number exactly `rawModules`. |
| QrLayout.ZigzagInside | web/lib/qr.ts:199-205 | Every step of the zigzag is inside the symbol, outside column 6, and determines its round and step. |
| QrLayout.ZigzagCovers | web/lib/qr.ts:199-205 | Every module outside column 6 is some step of the zigzag. |
| QrLayout.VisitedExactly | web/lib/qr.ts:199-206 | After any step the modules visited are exactly those before it, once each. |
| QrLayout.FreeCellsExact | web/lib/qr.ts:197-212 | The zigzag offers every module outside the function patterns exactly once, `rawModules` in all. |
| QrInfo.ComputeFormatWord | web/lib/qr.ts:168-172 | The shift loop computes the format word. |
| QrInfo.FormatIsCodeword | web/lib/qr.ts:168-172 | Without its mask 0x5412 the format word is a carry-less multiple of 0x537. |
| QrInfo.ReadFormatBack | web/lib/qr.ts:168-172 | Level L and the mask read back from the format word. |
| QrInfo.ComputeVersionWord | web/lib/qr.ts:185-187 | The shift loop computes the version word. |
| QrInfo.VersionIsCodeword | web/lib/qr.ts:185-187 | The version word is a multiple of 0x1f25 and carries the version in its upper bits. |
| QrStandard.MaskIsPattern | web/lib/qr.ts:70-81 | The condition of each of the eight masks, at every x and y, is the repeated tile that pictures the pattern of section 7.8.2 of ISO/IEC 18004. |
| QrStandard.DataOrder | web/lib/qr.ts:197-212 | The data modules come in column pairs from right to left, upwards and downwards in turn, the right module of a row before the left: the order of section 7.7.3. |
| QrStandard.CornerPattern | web/lib/qr.ts:148-157 | Each corner shows the pictured finder pattern with its separator. |
| QrStandard.TimingPattern | web/lib/qr.ts:144-147 | Between the corners row 6 and column 6 are dark at even places. |
| QrStandard.BullseyePattern | web/lib/qr.ts:158-166 | Around every centre of Table E.1 stands the pictured alignment pattern. |
| QrStandard.VersionBits | web/lib/qr.ts:184-195 | Bit i of the version word stands in both places of section 7.10. |
| QrStandard.DarkModule | web/lib/qr.ts:181 | The dark module is dark. |
| QrMatrix.DrawTiming | web/lib/qr.ts:144-147 | Draws the timing patterns in both arrays and nothing else. |
| QrMatrix.DrawFinders | web/lib/qr.ts:148-157 | Draws the three finders with separators and nothing else. |
| QrMatrix.DrawAlignments | web/lib/qr.ts:158-166 | Draws the alignment patterns except at the finders and nothing else. |
| QrMatrix.DrawFormat | web/lib/qr.ts:168-182 | Writes the format word in both copies, and the dark module, and leaves every other module alone. |
| QrMatrix.DrawVersion | web/lib/qr.ts:184-195 | Writes the version word in both copies and leaves every other module alone. |
| QrMatrix.PlaceData | web/lib/qr.ts:197-212 | Every codeword bit lands in its own module in zigzag order; no function module changes. |
| QrMatrix.ApplyMask | web/lib/qr.ts:214-218 | Flips exactly the modules outside the function patterns that the mask selects; which those are is QrStandard.MaskIsPattern. |
| QrMatrix.TryMask | web/lib/qr.ts:248-251 | Trying a mask and undoing it leaves the matrix as it was and yields that mask's penalty. |
| QrMatrix.ChooseMask | web/lib/qr.ts:245-257 | The trials leave the matrix unchanged and pick the first mask of least penalty. |
| QrMatrix.FinishedSymbol | web/lib/qr.ts:136-260 | Patterns, placed data, a mask and its format word make a symbol in the sense the reader needs. |
| QrMatrix.QrMatrix | web/lib/qr.ts:126-261 | Fails exactly beyond 271 bytes; otherwise returns, in the smallest version that fits, the symbol of the codewords under the forced mask, or under the first mask of least penalty. |
| QrReader.FormatReads | web/lib/qr.ts:168-182 | Either copy of the format information in a symbol is its format word. |
| QrReader.SymbolLooks | web/lib/qr.ts:144-195 | Every symbol has the pictured corners, timing lines, alignment patterns, dark module and version information, which the reader demands. |
| QrReader.StreamReads | web/lib/qr.ts:197-218 | Taking the pictured pattern off and reading in zigzag order gives the bits of the codewords. |
| QrReader.SymbolReads | web/lib/qr.ts:83-261 | For all bytes that fit, every mask and either format copy, the reader, which knows the function patterns and the masks by the tables of QrStandard only, returns exactly the bytes. |
| QrReader.EncodeAndRead | web/lib/qr.ts:126-261 | Whatever `qrMatrix` returns reads back as its input. |
| Idempotency.CacheKeysApart | internal/adapter/middleware/idempotency.go:144-145 | Cache keys, and lock keys, are equal exactly for the same tenant and key; a cache key equals a lock key exactly when one raw key is the other with ":lock". |
| Idempotency.FingerprintExactly | internal/adapter/middleware/idempotency.go:227-245 | Fingerprints of valid requests agree if and only if method, path and body are the same, or the methods are and one decoded path holds, behind a NUL, the front of the other's body. |
| Idempotency.PlainPathsApart | internal/adapter/middleware/idempotency.go:227-245 | Requests whose paths have no NUL never collide so. |
| Idempotency.CollidingPair | internal/adapter/middleware/idempotency.go:227-245 | "/p" with the body b, NUL, c collides with "/p%00b" with the body c. |
| Idempotency.AtMostOneHolder | internal/adapter/middleware/idempotency.go:183-203 | In every run whose lock holders finish within the lock TTL, no two requests with one key are between lock and unlock together, whatever store calls fail. |
| Idempotency.AtMostOneHandler | internal/adapter/middleware/idempotency.go:147-203 | Without store faults and within the lock TTL at most one handler of a (tenant, key) runs at any time of any run. |
| Idempotency.LateLookupNeverRuns | internal/adapter/middleware/idempotency.go:147-224 | A request whose lookup comes after the storing of a 2xx answer to its key, within the cache TTL, is answered from the store and its handler never runs, unless its key without a final ":lock" is a key of the run. |
| Idempotency.MissExactly | internal/adapter/middleware/idempotency.go:147-181 | In every run with any faults and delays, a lookup the store answers misses if and only if no 2xx answer to its key was stored before it, less than the cache TTL ago; with the same exception. |
| Idempotency.AcquireExactly | internal/adapter/middleware/idempotency.go:183-197 | In every run without faults and panics whose lock holders finish within the lock TTL, a lock attempt runs the handler if and only if no request with its key is between lock and unlock, unless its key followed by ":lock" is a key of the run. |
| Idempotency.HandlerRunsExactly | internal/adapter/middleware/idempotency.go:147-224 | So in every such run the handler of a request runs if and only if its lookup found no 2xx answer to its key stored within the cache TTL and its lock attempt met nobody with its key between lock and unlock. |
| Idempotency.EveryPath | internal/adapter/middleware/idempotency.go:147-223 | In every run with any faults, the events of each request are the path to where it stands: which calls it made, whether they failed, and that its answer is what its handler gave. |
| Idempotency.FaultRunsOpen | internal/adapter/middleware/idempotency.go:174-187 | In every run, a request whose lookup or lock attempt met a store fault is never refused or replayed: its handler runs, the answer is the handler's, and it never unlocks or stores anything. |
| Idempotency.ReplayIsFaithful | internal/adapter/middleware/idempotency.go:147-173 | In every run, a replayed response is the 2xx response of an earlier run of the same tenant and key for a request with the same fingerprint, which is the same request if and only if the two do not collide. |
| Idempotency.LookupExactly | internal/adapter/middleware/idempotency.go:147-173 | A lookup that finds the answer stored for a request replays it if the two are the same or collide, and is answered idempotency_key_reused otherwise. |
| Idempotency.CollisionIsReplayed | internal/adapter/middleware/idempotency.go:147-173 | For any two colliding requests with one key a run without faults answers the second with the response of the first. |
| Idempotency.HonestKeysNeverRefused | internal/adapter/middleware/idempotency.go:153-158 | If requests that share a key are equal, none is ever answered idempotency_key_reused. |
| Idempotency.RefusalIsTrue | internal/adapter/middleware/idempotency.go:183-196 | Without faults and panics, a request answered idempotency_in_flight met another request with its key between lock and unlock, unless its key followed by ":lock" is a key of the run. |
| Idempotency.SlowHandlerOverlaps | internal/adapter/middleware/idempotency.go:28-29 | The time bound is needed: a handler slower than the lock TTL lets a second one in. |
| Idempotency.PanicKeepsTheLock | internal/adapter/middleware/idempotency.go:198-203 | A handler that panics leaves its lock behind: for any two requests with one key a run refuses the second after the first panicked. |
| Idempotency.RunsTwice | internal/adapter/middleware/idempotency.go:200-223 | Exactly-once is not promised: for any two requests with one key a run without faults or delays runs both handlers to 2xx, the second having looked up before the first answer was stored and locked after the unlock. |
| Idempotency.AliasForgets | internal/adapter/middleware/idempotency.go:144-145 | The first exception is needed: whenever one raw key is another with ":lock", a run without faults loses a stored answer to the other key's unlock and runs a later request again. |
| Idempotency.AliasRefuses | internal/adapter/middleware/idempotency.go:144-145 | So is the second: a run without faults then refuses a request as in flight although nobody is between lock and unlock. |
| Idempotency.ResubmitReplays | internal/adapter/middleware/idempotency.go:147-224 | Served twice in a row without faults, a request is replayed the second time exactly when its first answer was 2xx. |
| Idempotency.Serve | internal/adapter/middleware/idempotency.go:94-224 | The middleware around one request, step by step on the store, leaves store and outcome as the machine's steps do. |
| Idempotency.KvStore.SetNX | internal/adapter/middleware/idempotency.go:36-41 | Acquires exactly when the key is missing or expired. |
| SubmitKey.UseSubmitKey.KeyFor | web/lib/submit-key.ts:20-26 | Returns the held key for an unchanged payload, else a new one. |
| SubmitKey.UseSubmitKey.Failed | web/lib/submit-key.ts:29-35 | Keeps the key only for a lost reply. |
| SubmitKey.SameKeyExactly | web/lib/submit-key.ts:16-42 | Two attempts carry the same key exactly when the payload is unchanged and everything between them was a lost reply or another attempt with it. |
| SubmitKey.SameKeySameRequest | web/lib/submit-key.ts:16-42 | Requests of any buttons that carry the same key are the same request. |
| SubmitKey.NeverRefused | web/lib/submit-key.ts:6-15 | Clients with fresh keys are never answered idempotency_key_reused, in any run of the server with any faults and delays. |
| CashierPin.SetCashierMode.SweepLocked | internal/app/account/cashier_mode.go:132-144 | Drops exactly the stale entries, at most once a minute. |
| CashierPin.SetCashierMode.ReserveAttempt | internal/app/account/cashier_mode.go:146-168 | Counts one attempt and refuses while locked out, as the specification function says. |
| CashierPin.SetCashierMode.ClearFails | internal/app/account/cashier_mode.go:170-174 | Forgets the entry of one key only. |
| CashierPin.SetCashierMode.CheckPinOf | internal/app/account/cashier_mode.go:176-195 | Reserves first, compares second, forgives only a right PIN. |
| CashierPin.SetCashierMode.VerifyPin | internal/app/account/cashier_mode.go:240-254 | Invalid and unset PINs are answered without touching the counter. |
| CashierPin.VerifyExactly | internal/app/account/cashier_mode.go:182-196 | For every state of the counters, each answer has its exact condition: locked out if and only if the member is locked at that moment, otherwise right for the stored PIN and wrong for any other; and a right PIN gives the member exactly five attempts again, at any later moment. |
| CashierPin.LockLasts | internal/app/account/cashier_mode.go:146-168 | The fifth counted failure locks for exactly 300 seconds, an earlier one not at all; a failure is the first again once the old entry is stale and swept. |
| CashierPin.PinShapes | internal/app/account/cashier_mode.go:240-243 | PINs of four to six digits are valid, and shorter, longer and other texts are not, by examples. |
| CashierPin.WindowBound | internal/app/account/cashier_mode.go:132-174 | From every reachable state at most five attempts of one member reach the comparison in any five minutes in which the member is not cleared, whatever others and the sweeper do. |
| CashierPin.FiveGuessesPerWindow | internal/app/account/cashier_mode.go:132-195 | A member who gives wrong PINs is told wrong at most five times in any five minutes. |
| CashierPin.OthersDoNotMatter | internal/app/account/cashier_mode.go:83-84 | As long as no stale count of the member survives a skipped sweep, other members' operations never change the member's verdict. |
| CashierPin.OthersMatterExactly | internal/app/account/cashier_mode.go:132-168 | The exact condition: other members have changed some future answer if and only if a stale count survived because someone else swept less than a minute ago. |
| CashierPin.ColleagueKeepsFailures | internal/app/account/cashier_mode.go:132-144 | A concrete run in which a colleague's attempt keeps old failures alive and locks the member out early. |
| CashierPin.SetCashierMode.ExecuteOn | internal/app/account/cashier_mode.go:201-238 | What Execute does after it has read the record, which may be stale by then, as the specification function says. |
| CashierPin.ExecuteExactly | internal/app/account/cashier_mode.go:201-238 | The same for Execute with the record it has read: each answer if and only if its condition, the first PIN stored exactly for a retail shop without one by then, and five attempts after a right PIN. |
| CashierPin.CashierModeRepo.PutCashierFirst | internal/adapter/repo/account/cashier_mode.go:57-77 | The guarded update stores a PIN only where none is stored. |
| CashierPin.FirstPinStays | internal/app/account/cashier_mode.go:197-254 | In every run of Execute and Verify requests, each with any delay between its read and the rest, the PIN stored first stays, is valid and was given by a request that succeeded; success means that the given PIN is the stored one, a wrong verdict that it is not, and no two successes differ. |
| DevOrg.DevOrgClient.EnsureOrg | internal/adapter/platform/org_dev.go:77-100 | Creates the organization and its owner once per (product, reference). |
| DevOrg.DevOrgClient.UpdateMember | internal/adapter/platform/org_dev.go:180-207 | Checks in the order of the source, then writes role and product roles of the target only. |
| DevOrg.DevOrgClient.RemoveMember | internal/adapter/platform/org_dev.go:209-232 | Checks in the order of the source, then deletes the target's row only. |
| DevOrg.DevOrgClient.CreateInvite | internal/adapter/platform/org_dev.go:239-271 | Inserts one invite with a lifetime of 1 to 168 hours, else 72. |
| DevOrg.DevOrgClient.RevokeInvite | internal/adapter/platform/org_dev.go:297-319 | Revokes a pending invite of that organization, else reports it invalid. |
| DevOrg.DevOrgClient.AcceptInvite | internal/adapter/platform/org_dev.go:321-369 | A member gets the current role back first; otherwise a pending invite in time adds one row and is consumed. |
| DevOrg.DevOrgClient.RevokePending | internal/adapter/platform/org_dev_dissolve.go:21-25 | The first statement revokes exactly the pending invites of the organization. |
| DevOrg.DevOrgClient.DeleteIfSole | internal/adapter/platform/org_dev_dissolve.go:26-31 | The second statement deletes the actor exactly as the sole member. |
| DevOrg.DevOrgClient.DissolveOrg | internal/adapter/platform/org_dev_dissolve.go:12-33 | The two statements back to back are the uninterrupted operation. |
| DevOrg.Permissions | internal/adapter/platform/org_dev.go:182-319 | Which pairs of roles allow an update, a removal, an invite or a revocation, as a table, for all databases with known roles. |
| DevOrg.Refusals | internal/adapter/platform/org_dev.go:182-319 | Which of the four errors a refused request gets, each with its exact condition. |
| DevOrg.AlwaysKnown | internal/adapter/platform/org_dev.go:92-95 | Only the three roles of the tables appear in reachable states, so the table is about all of them. |
| DevOrg.UpdateThenJoin | internal/adapter/platform/org_dev.go:182-207 | After an update that answers Done, that member's next accept, with any token of the organization, answers with exactly the given role and product roles. |
| DevOrg.RemoveThenJoin | internal/adapter/platform/org_dev.go:210-232 | After a removal that answers Done the account has no role, nobody else's role and no invite has changed, and only a pending invite in time lets it in again. |
| DevOrg.InviteThenJoin | internal/adapter/platform/org_dev.go:240-271 | A created invite lets a newcomer in, with exactly the offered role and product roles, up to the hours asked for if they are 1 to 168 and up to 72 hours otherwise. |
| DevOrg.RevokeThenJoin | internal/adapter/platform/org_dev.go:298-319 | A revocation answers Done exactly for a pending invite of the organization and a manager, and then the invite lets no newcomer in. |
| DevOrg.AcceptAnswers | internal/adapter/platform/org_dev.go:322-369 | An accept answers with the row the account has afterwards, if and only if it has one. |
| DevOrg.RowOrigin | internal/adapter/platform/org_dev.go:182-369 | Over every run, however operations overlap: role and product roles of every row are together those of the last update of it that landed, of the invite accepted for it, or the founder's, and no step since has touched it. |
| DevOrg.OrgIdsStay | internal/adapter/platform/org_dev.go:77-100 | Over every run: an id once given for a product and reference stays, nobody else gets it, and EnsureOrg answers with it. |
| DevOrg.StepsAreWhole | internal/adapter/platform/org_dev.go:182-319 | The steps of a checked operation (read the actor's role, read the target's and decide, write), taken back to back, are the uninterrupted operation. |
| DevOrg.OneOwnerOrNobody | internal/adapter/platform/org_dev.go:77-100 | In every run, with operations interleaved at every database call, an organization is owned by its founder alone or has neither member nor pending invite in all its states, if and only if no step before writes an allowed invite of it after its last member left, or takes its last member off a pending invite. |
| DevOrg.SettledStep | internal/adapter/platform/org_dev.go:239-268 | The same for one step from any reachable settled state, as an if-and-only-if on two guards: a member at the insert of an invite, no pending invite at the removal of the last member. |
| DevOrg.DesertedForGood | internal/adapter/platform/org_dev_dissolve.go:12-14 | Under the same guards a deserted organization stays deserted. |
| DevOrg.RemovalExactly | internal/adapter/platform/org_dev_dissolve.go:15-33 | A dissolve that revokes at one step and removes the last member at a later one leaves the organization deserted if and only if every invite inserted in between is accepted or revoked by then. |
| DevOrg.QuietSuffices | internal/adapter/platform/org_dev_dissolve.go:15-33 | If invites of an organization are inserted only while it has a member and no dissolve of it is between its two statements, it is in order in every state. |
| DevOrg.DissolveRace | internal/adapter/platform/org_dev_dissolve.go:15-33 | A run in which the invite is inserted between the two statements, while the owner is still seated, and that ends with a plain member alone: a member check at the insert would not help. |
| DevOrg.Founding | internal/adapter/platform/org_dev.go:85-95 | Every organization of a reachable state was founded by an EnsureOrg of the run. |
| DevOrg.OwnersAreFounders | internal/adapter/platform/org_dev.go:92-95 | Every owner of every reachable state is the organization's founder, however operations overlap. |
| DevOrg.OwnerlessOrg | internal/adapter/platform/org_dev.go:241-268 | A run in which an invite checked before a dissolve is inserted after it, and that ends with a plain member alone in an organization without an owner. |
| DevOrg.AdminRuleExactly | internal/adapter/platform/org_dev.go:182-232 | In every reachable state, a step that changes or removes an admin's row carries out one request, and that is the owner's decision, the admin leaving, or a dissolve by the sole member, if and only if the request was not allowed to a mere admin who read the row as a non-admin's. |
| DevOrg.AdminsOverRuns | internal/adapter/platform/org_dev.go:182-232 | The same over every run, with the earlier steps at which the two roles were read; the owner of the rule is the founder. |
| DevOrg.AdminsAreSafe | internal/adapter/platform/org_dev.go:182-232 | Uninterrupted, an admin's row changes only by the owner's hand, by leaving, or by dissolving as the last member. |
| DevOrg.AdminDemotedByAdmin | internal/adapter/platform/org_dev.go:182-207 | Such a stale request: any run that ends with an owner, an admin and a member of one organization goes on so that the owner promotes the member between the admin's check and write, and the admin demotes another admin. |
| DevOrg.StaffedShop | internal/adapter/platform/org_dev.go:77-369 | A run that ends with such an owner, admin and member. |
| DevOrg.RequestOrigin | internal/adapter/platform/org_dev.go:182-319 | Every write of a run was allowed on an actor's role and a target's role read at earlier steps of it. |
| DevOrg.AdminsComeFromTheFounder | internal/adapter/platform/org_dev.go:182-271 | Every admin of every reachable state was made one by the founder: by a role change, or by accepting an admin invite the founder issued. |
| DevOrg.InviteOrigin | internal/adapter/platform/org_dev.go:239-271 | Every invite goes back to an earlier step at which its inviter's role was read and allowed it (an owner's for an admin invite), and its offer never changes. |
| DevOrg.AcceptSpends | internal/adapter/platform/org_dev.go:346-368 | An accept that changes anything uses a pending invite in time, adds exactly the seat it offers, and consumes the invite. |
| DevOrg.SpentInviteAddsNobody | internal/adapter/platform/org_dev.go:346-354 | An invite accepted or revoked anywhere earlier in the run, or expired, never changes a row again. |
| UsageReport.NothingIsLostUncounted | internal/adapter/usagereport/reporter.go:146-251 | In every reachable state each event the queue took is in exactly one of channel, worker, posted, skipped, queued and enqueue-failed, and the enqueued count is the sum of theirs. |
| UsageReport.BilledAtMostOnce | internal/adapter/platform/usage.go:21 | In every reachable state each ledger row is for exactly one recorded event with its prompt plus completion tokens, and no two rows are for one event, whatever replies, marks and lookups failed and however workers overlapped. |
| UsageReport.IdemKeyInjective | internal/adapter/usagereport/outbox.go:57-62 | Different events have different idempotency keys. |
| UsageReport.AlwaysDelivered | internal/adapter/usagereport/retry_worker.go:116-127 | Events counted posted, rows marked sent and rows about to be marked are in the ledger. |
| UsageReport.EveryEventIsAccountedFor | internal/adapter/usagereport/reporter.go:176-251 | Every event the queue took is billed, still with the reporter, in the outbox, or counted as skipped or as a failed enqueue. |
| UsageReport.TakenExactly | internal/adapter/usagereport/reporter.go:146-174 | Over every run: taken are exactly the calls with a positive count and a known tenant that met room in the queue, with the counts they were recorded with. |
| UsageReport.QueueIsInOrder | internal/adapter/usagereport/reporter.go:161-176 | Over every run: the queue holds what was taken and not yet handed over, in order, and a worker is handed the earliest. |
| UsageReport.EndsHaveCauses | internal/adapter/usagereport/reporter.go:176-283 | Over every run: an event is skipped only if its tenant does not parse, or there is no durable store and its lookup, with nothing cached for its tenant, or its post failed; queued only after one of the two failed; and lost only if then its enqueue failed. |
| UsageReport.BilledToItsOwner | internal/adapter/usagereport/reporter.go:192-283 | Over every run: the account of every ledger row was found by an earlier lookup for the tenant of its event, or by the retry of its row. |
| UsageReport.SentExactly | internal/adapter/repo/usage_report_outbox/store.go:110-125 | Over every run: a row is sent if and only if a mark of it landed. |
| UsageReport.ErrorsHaveCauses | internal/adapter/usagereport/retry_worker.go:82-138 | Over every run: a retry records an error only after its own lookup or post failed. |
| UsageReport.BatchIsTail | internal/adapter/usagereport/retry_worker.go:65-80 | Over every run: a retry worker handles what it drained row by row and in order, whatever errors it meets, until it drains again or restarts. |
| UsageReport.RetriesAreBounded | internal/adapter/repo/usage_report_outbox/store.go:74-85 | With k retry workers no row ever has more than 9 + k recorded attempts, nor more than k alerts. |
| UsageReport.RecordedFailureSpendsBudget | internal/adapter/usagereport/retry_worker.go:130-138 | A failed retry whose error is recorded takes exactly one off the sum of (cap - attempts); queueing adds one fresh row; nothing else changes it. |
| UsageReport.PositiveAmounts | internal/adapter/usagereport/reporter.go:149-152 | In every run a billed amount is never negative, and it is positive if and only if the two counts of its event add up to more than zero, as counts of which none is negative do. |
| UsageReport.NegativeNeverBilled | internal/adapter/platform/usage.go:15-22 | In every run an event whose counts add up to less than zero is never in the ledger, never posted and its row never marked sent, since the platform asks for a quantity of at least 0. |
| UsageReport.ZeroIsBilled | internal/adapter/usagereport/reporter.go:150 | Counts of 5 and -5 pass the guard: a run bills 0. |
| UsageReport.RefundExhausts | internal/adapter/usagereport/reporter.go:150 | Counts of 5 and -10 pass it too: a run without a lost call ends with the row at the cap, an alert, and nothing billed. |
| UsageReport.AlertsAndLosses | internal/adapter/usagereport/retry_worker.go:130-146 | With any number of workers and any faults, the exhausted alerts of a row plus those lost with a reply are its recorded attempts from the cap on. |
| UsageReport.AlertFiresExactlyOnce | internal/adapter/usagereport/retry_worker.go:130-146 | So the alert of a row has fired exactly once if and only if its attempts stand at the cap plus the number of its lost alerts; at exactly ten when no reply at the cap was lost. |
| UsageReport.OneWorkerAlertsOnce | internal/adapter/usagereport/retry_worker.go:130-146 | With one worker the alert has fired exactly once for a row at the cap and never for another if and only if the reply to the row's step from nine to ten attempts was not lost. |
| UsageReport.LostReplyLosesTheAlert | internal/adapter/usagereport/retry_worker.go:132-138 | A run that loses that reply: a row at the cap without any alert. |
| UsageReport.TwoWorkersAlertTwice | internal/adapter/repo/usage_report_outbox/store.go:67-110 | A run without lost replies in which two workers that drained the same row take it to eleven attempts and alert twice. |
| UsageWorkers.UsageReporter.Record | internal/adapter/usagereport/reporter.go:146-174 | Takes a billable call of a known tenant if the queue has room; a step of the machine. |
| UsageWorkers.UsageReporter.Process | internal/adapter/usagereport/reporter.go:176-220 | Resolve, post, queue for retry: the steps of the machine for one event. |
| UsageWorkers.TaskEndsExactly | internal/adapter/usagereport/reporter.go:176-251 | Each of the four ends of an event processed without interruption has its exact condition; with a cached or found account, nothing refused and a post seen to succeed it is posted. |
| UsageWorkers.UsageReporter.EnqueueForRetry | internal/adapter/usagereport/reporter.go:222-251 | Skips without a store, else queues or counts the loss. |
| UsageWorkers.RetryWorker.ProcessRow | internal/adapter/usagereport/retry_worker.go:82-128 | The steps of the machine for one drained row. |
| UsageWorkers.OldestIs | internal/adapter/repo/usage_report_outbox/store.go:64-105 | A drain takes due rows without repeats, at most the limit, none before an older due row, and all of them if there are fewer. |
| UsageWorkers.Outbox.Drain | internal/adapter/repo/usage_report_outbox/store.go:64-105 | The loop over the queue returns exactly those rows in order. |
| UsageWorkers.RetryWorker.ProcessBatch | internal/adapter/usagereport/retry_worker.go:77-79 | The loop over a batch is the machine's steps row by row. |
| UsageWorkers.RetryWorker.DrainOnce | internal/adapter/usagereport/retry_worker.go:65-80 | One tick is the machine's drain of the oldest due rows followed by the steps of each, or nothing when the drain fails. |
| UsageWorkers.TickTriesEach | internal/adapter/usagereport/retry_worker.go:65-128 | One tick tries each of the oldest due rows, up to a hundred, once: it is sent if it got through and the mark landed, has one attempt more if it did not and the error landed, and no other row changes. |
| UsageWorkers.Platform.ReportUsageEvent | internal/adapter/platform/usage.go:15-43 | Refuses an account that is not positive and a negative quantity; otherwise the ledger dedups on product and key. |
| EventAudit.PublishedIsInTheStream | internal/adapter/nats/outbox_worker.go:128-157 | A row marked published has its own message in the stream. |
| EventAudit.InStreamExactly | internal/adapter/nats/outbox_worker.go:128-157 | For any number of workers and any faults, a row is in the stream if and only if it is marked, a worker is about to mark it, or an earlier step orphaned it: a publish not seen, a mark lost, or a stop between the two. |
| EventAudit.AtMostOnceExactly | internal/adapter/nats/outbox_worker.go:128-157 | For any number of workers and any faults, a row is in the stream at most once if and only if it is never published when already marked, while a worker is about to mark it, or after it was orphaned. |
| EventAudit.PublishedAtMostOnce | internal/adapter/repo/event_outbox/store.go:53-97 | For any number of workers, if a row is never drained while it is in an unfinished batch, it is in the stream at most once if and only if it is never published again after it was orphaned. |
| EventAudit.TwoWorkersPublishTwice | internal/adapter/repo/event_outbox/store.go:67-97 | Two workers publish one row twice without any fault, because the drain commits before anything is published. |
| EventAudit.AuditIsOncePerEvent | internal/adapter/repo/account/repo.go:151-175 | Across redelivery, duplicate publishes, lost acknowledgements and overlap, the audit log has at most one row per event id, each asked for by a message, and every acknowledged message has its row. |
| EventAudit.AckedRowIsItsOwn | internal/adapter/nats/audit_subscriber.go:128-149 | If no two outbox rows share an event id with different envelopes, every acknowledged message has a row whose event id, tenant, actor, action, target and payload are its envelope's event id, tenant, source, type, target and payload. |
| EventAudit.LogIsTheMessages | internal/adapter/nats/audit_subscriber.go:128-138 | The converse: in every reachable state each row of the log is, field by field, that of a readable message of the stream, which is its outbox row's. |
| EventAudit.DispatchExactly | internal/adapter/nats/audit_subscriber.go:101-150 | Which messages are appended, terminated and go on to be acknowledged when the append returns, each with its exact condition, and what the log gets. |
| EventAudit.StatusExactly | internal/adapter/nats/audit_subscriber.go:101-150 | Over every run: a message is acknowledged if and only if an acknowledgement of it landed, and terminated if and only if it cannot be read and a termination landed. |
| EventAudit.DeliveriesAddUp | internal/adapter/nats/audit_subscriber.go:58-88 | Over every run: a message is delivered at most five times, each delivery is dispatched or in dispatch, and each dispatch whose append returned is acknowledged or about to be. |
| EventAudit.Filter | internal/adapter/nats/audit_subscriber.go:65-68 | The consumer gets bill and alert events and no others, by examples. |
| EventAudit.NoIdNoDedup | migrations/000049_audit_event_id_unique.up.sql:9-13 | An event without an id is not deduplicated: for each there is a run without faults in which one redelivery doubles its row. |
| EventAudit.AuditSubscriber.Dispatch | internal/adapter/nats/audit_subscriber.go:100-150 | Terminates unreadable messages, acknowledges only after the append returned, else asks for redelivery. |
| EventAudit.OutboxWorker.ProcessRow | internal/adapter/nats/outbox_worker.go:128-157 | Publish, then mark, or record the error: the steps of the machine. |
| EventAudit.RowIsAsQueued | internal/adapter/repo/event_outbox/store.go:39-51 | Over every run: the message of a row is the one it was queued with. |
| EventAudit.RowsCountExactly | internal/adapter/repo/event_outbox/store.go:105-175 | Over every run: a row is published if and only if a mark of it landed, and its attempts are its recorded errors. |
| EventAudit.DrainableExactly | internal/adapter/repo/event_outbox/store.go:70-80 | Over every run: a drain may take exactly the queued rows of which no mark has landed and fewer than ten errors are recorded. |
| EventAudit.BatchIsTail | internal/adapter/nats/outbox_worker.go:101-126 | Over every run: a worker handles what it drained row by row and in order, whatever errors it meets, until it drains again or restarts. |
| Crc32.CrcTable | web/scripts/gen-icons.ts:11-15 | The two loops fill the table with eight steps from every byte. |
| Crc32.Crc32 | web/scripts/gen-icons.ts:16-20 | The table-driven loop computes, for every buffer, the bit-by-bit CRC of section 3.4 of RFC 2083. |
| Crc32.GeneratorIs | web/scripts/gen-icons.ts:13 | The constant of the loop is the generator of section 3.4 of RFC 2083, its coefficients reversed and x^32 left out. |
| Crc32.CrcFromZero | web/scripts/gen-icons.ts:16-20 | For every buffer of four bytes or more: the register starts from zero, the first 32 bits go in complemented, and the result is complemented, which is how that section describes the start value. |
| Crc32.TableStepFeeds | web/scripts/gen-icons.ts:18 | One table lookup is eight bits of that definition. |
| Crc32.StepInjective | web/scripts/gen-icons.ts:13 | A step is a bijection on the 32-bit states. |
| Crc32.BurstsAreDetected | web/scripts/gen-icons.ts:16-20 | Buffers of one length whose differences lie within 32 consecutive bits never share a CRC. |
| Crc32.ByteChangesAreDetected | web/scripts/gen-icons.ts:16-20 | Changing up to four neighbouring bytes always changes the CRC. |
| Crc32.Chunk | web/scripts/gen-icons.ts:21-28 | Writes length, type, data and CRC in place; fails exactly for 2^32 bytes or more. |
| Crc32.ChunkReadsBack | web/scripts/gen-icons.ts:21-28 | A chunk reads back as its type and data. |
| Crc32.AlteredChunkIsRejected | web/scripts/gen-icons.ts:21-28 | A chunk altered in up to four neighbouring bytes of type and data is rejected. |
| MoneyCn.PrintInteger | web/lib/money-cn.ts:31-48 | The loop over the integer digits with its two flags. |
| MoneyCn.MoneyToChinese | web/lib/money-cn.ts:24-60 | The printer of an amount in fen. |
| MoneyCn.RoundTrip | web/lib/money-cn.ts:24-60 | Every amount of either sign with at most 16 integer digits reads back from its text. |
| MoneyCn.IntegerIsPieces | web/lib/money-cn.ts:31-48 | The integer part of every amount, piece by piece: a digit's name and unit, after 零 exactly if the digit before it is zero, and the unit of every group that has a value. |
| MoneyCn.FractionTexts | web/lib/money-cn.ts:51-59 | The text of the fraction in all five cases. |
| MoneyCn.TextsDiffer | web/lib/money-cn.ts:26 | The text is empty exactly from 10^16 yuan on, and different amounts in range have different texts. |
| MoneyCn.ZerosAreTidy | web/lib/money-cn.ts:36-59 | 零 never stands before another 零, and before 元 only in 零元整. |
| Streaks.Evaluate | internal/alert/evaluator.go:33-93 | For snapshots in any order whose readings have distinct dates, the result is exactly the signals with at least N red readings after their last green one, with that count and first date, each once, sorted by name. |
| Streaks.Accumulate | internal/alert/evaluator.go:50-75 | The map loop leaves for every name the streak of its readings. |
| Streaks.StreakCountsTail | internal/alert/evaluator.go:62-71 | A streak counts the red readings after the last green one and knows the first of them. |
| Streaks.TailIsTrailing | internal/alert/evaluator.go:33-75 | The chronological streak is the order-free set of the plain definition. |
| Streaks.SameSnapshots | internal/alert/evaluator.go:28 | Only which snapshots there are matters, not their order. |
| Assumptions.ParseAssumptions | cmd/kill-switch-monitor/parser.go:73-152 | The line loop with its two flags computes `Parse`. |
| Assumptions.WrittenRowIsRead | cmd/kill-switch-monitor/parser.go:103-145 | A row written between bars is read inside the table as the snapshot of its date with the readings of cells 7 and 9: 1 against 0.40 or 0.20 for a cell that says truthy, 0 for falsified, in any casing and with any white space around, and none for anything else. |
| Assumptions.ParseIsRows | cmd/kill-switch-monitor/parser.go:73-148 | The snapshots are those of exactly the lines that start with a bar, hold no three dashes, and come behind a separator with only such lines between. |
| Assumptions.DatesAreRead | cmd/kill-switch-monitor/parser.go:115-119 | A text is read as a date exactly when it is the year-month-day text of a day of the calendar. |
| Assumptions.OpenRowSplits | cmd/kill-switch-monitor/parser.go:154-163 | A row without a bar at its end loses its last cell. |
| Assumptions.CellColours | cmd/kill-switch-monitor/parser.go:165-201 | A cell gives a red reading for falsified, a green one for truthy, and otherwise none. |
| Assumptions.SplitJoin | cmd/kill-switch-monitor/parser.go:154-163 | Splitting a row undoes joining its cells. |
| Assumptions.RowsWithoutReadingDoNotMatter | cmd/kill-switch-monitor/parser.go:121-145 | Adding a row whose KS cells carry no reading, anywhere in any file, never changes the verdict. |
| CustomerAlias.MaskEverydayWords | internal/app/ai/customer_alias.go:112-121 | The replacing loop computes `Mask`. |
| CustomerAlias.MaskingIsClean | internal/app/ai/customer_alias.go:112-121 | Masking keeps the length and every code point it does not blank, blanks everyday words of the text as a whole and nothing else, leaves none, is idempotent, and changes nothing exactly when there is none. |
| CustomerAlias.AliasSurnamesInText | internal/app/ai/customer_alias.go:65-90 | The scan with its map of seen surnames computes `Mentions`. |
| CustomerAlias.MentionsAreForms | internal/app/ai/customer_alias.go:55-90 | Every mention is an address form standing in the original text, of a common surname; surnames are distinct; and every form left after masking has its surname mentioned. |
| CustomerAlias.MentionsInOrder | internal/app/ai/customer_alias.go:65-90 | Mentions come in the order in which their surnames are first written in the masked text, each in the form written there: prefix and surname, or surname and the longest suffix that stands behind it. |
| CustomerAlias.AliasSurnameExactly | internal/app/ai/customer_alias.go:21-46 | A name is taken as an address form if and only if it is, but for white space around it, a prefix and a common surname or a common surname and a suffix, no title and without everyday words; and then for that surname. |
| CustomerAlias.Forms | internal/app/ai/customer_alias.go:16-19 | The address forms of the tables, for every common surname. |
| CustomerAlias.NameAgreesWithText | internal/app/ai/customer_alias.go:21-46 | A name `aliasSurname` accepts yields the same surname when scanned as text. |
| CustomerAlias.ResolveAliasInText | internal/app/ai/customer_alias.go:157-184 | Attributes the message exactly when no lookup fails and all customers found have one id, with a form of that customer. |
| AliasTables.TablesAreProper | internal/app/ai/customer_alias.go:96-132 | The word and surname tables of the source meet what these lemmas ask of them. |
| AliasTables.EverydayLongestFirst | internal/app/ai/customer_alias.go:123-127 | The everyday words stand longest first. |
| Calendar.DateBack | web/lib/date-range.ts:50-55 | Every valid date comes back from its day number. |
| Calendar.NumberBack | web/lib/date-range.ts:50-55 | Every day number has a valid date and comes back from it. |
| Calendar.AddDaysIs | web/lib/date-range.ts:51-55 | `addDays` moves the day number by exactly the delta, across months and years. |
| Calendar.EpochIsThursday | web/lib/date-range.ts:74 | Weekdays are anchored: 1970-01-01 is a Thursday. |
| Calendar.WeekIs | web/lib/date-range.ts:73-77 | this_week starts on a Monday, spans seven days and contains the day. |
| Calendar.WeeksPartition | web/lib/date-range.ts:73-77 | Two days' weeks are equal or disjoint, and equal exactly when one contains the other day. |
| Calendar.LastDayIs | web/lib/date-range.ts:57-59 | Day 0 of the next month is the last day of the month. |
| Calendar.MonthIs | web/lib/date-range.ts:78-79 | this_month holds exactly the days of the month. |
| Calendar.LastMonthJoins | web/lib/date-range.ts:80-84 | last_month ends on the day before this_month starts. |
| Calendar.TextOrderIsDayOrder | web/lib/date-range.ts:36-38 | For four-digit years the order of the formatted texts is the order of the days. |
| Calendar.WeekFilterIsExact | web/lib/date-range.ts:61-77 | Filtering texts by the two bounds of this_week keeps exactly the days of that week, where texts and bounds have four-digit years. |
| Calendar.WeekYears | web/lib/date-range.ts:73-77 | The bounds of this_week have four-digit years for every day of the years 1001 to 9998. |
| Calendar.FilterIsExact | web/lib/date-range.ts:61-86 | For every preset and every day of the years 1001 to 9998, filtering the texts of days by its two bounds keeps exactly the days it is for: today, the week, the month, the month before, all, or between the given texts. |
| Calendar.TextReadsBack | web/lib/date-range.ts:36-48 | The text of every date with a four-digit year reads back as its year, month and day. |
| Calendar.BareMonthIsTheLatest | internal/app/ai/customer_asof.go:57-67 | A bare month is its latest occurrence that has started, less than a year back, and the answer is its last instant. |
| Calendar.PeriodAnswered | internal/app/ai/customer_asof.go:47-70 | An instant is answered by itself; a day, a month and a bare month exactly when they are in the calendar. |
| Calendar.PeriodEnds | internal/app/ai/customer_asof.go:51-56 | A named day or month ends with its last nanosecond. |

## Left out

- QR: the UTF-8 encoding of the text into bytes and the SVG path; the penalty score is an arbitrary function of the matrix, since it only chooses among masks that all read back.
- QrMatrix.QrMatrix: a forced mask is one of 0 to 7; other values of the test-only parameter are not modelled, because they would not fit the three mask bits.
- QR error correction is proved as distance between codewords; a correcting decoder is not part of the repository and not modelled.
- Numbers of the client are non-negative integers with exclusive-or defined bit by bit; the signed 32-bit view of JavaScript is not modelled, because every value in the encoder and the CRC is used as a bit pattern.
- Idempotency: requests that pass through (read methods, missing or oversized keys, no tenant, unreadable body) and the JSON form of the stored entry; SHA-256 is taken to be injective; the store starts empty, a tenant id is a 36-character text, and a method, being a token, has no NUL.
- SubmitKey: keys of the generator are taken to be fresh, and JSON.stringify is the payload itself.
- CashierPin: PBKDF2 with a salt is taken to be injective, so that the PIN stands for its hash; database errors and the legacy flag are left out; times are whole seconds.
- DevOrg: AcceptInvite is one step, since it locks the invite and otherwise touches only the row of its own account; the revocations of a dissolve count from its first statement, since writers of those invites wait on their row locks until it commits; a dissolve that rolls back, and database errors other than conflicts, are left out, as are account ids, names, listings and the account table; tokens are taken to be unguessable and hashed injectively.
- UsageReport: which due rows a drain takes, up to 100, is a free choice of the machine (UsageWorkers takes the oldest); a refusal by the platform for another reason than account or quantity, such as an event older than seven days, is a post without effect; metrics other than the counters, timeouts, and a send on the queue after Stop are left out; event ids are taken to be fresh and stored once.
- EventAudit: the connection, backoff and wait times of JetStream; extractTarget is part of the envelope; a synchronous audit write is only an event without an id.
- Crc32: the drawing of the icons, encodePng and zlib.
- MoneyCn: parsing and half-up rounding of the decimal input, which ends in an integer of fen.
- Streaks: floating point is replaced by exact numbers, which the compared thresholds do not notice; sort.Slice is any sort by date.
- Assumptions: the file, the scanner's line limit and its errors.
- CustomerAlias: texts are code points; invalid UTF-8 and the repository behind the lookup are left out, the lookup being a parameter.
- Calendar: the zone conversion by Intl and time.LoadLocation, years below 100 in Date.UTC, and the recognition of the as-of text, which is given by its kind.
- The rest of the repository (pages, handlers, HTTP clients, notifiers, settings, the memory scenario runner) would only add members that are settled by reading one branch.
