# The edge's quota governor, verified

A Cloudflare Worker stands between visitors and an analysis API whose database (Neon) bills compute time
and outbound bytes. Its *governor* (`edge/src/governor.ts`, with the interval arithmetic of
`edge/src/budget.ts`) admits or denies each request so that neither budget is ever passed. An admission
takes a *lease* and reserves a provisional window of compute; a settlement replaces the reservation by what
the request really used, or refunds it; a lost lease expires and is charged; an alarm purges old rows and
polls Neon, whose figures arrive after an interleaved fetch. Compute is charged as the length of a *union*
of time windows, minus those charged before, with old windows trimmed.

This project models that governor and proves what it promises, over every run of its events: charges and
settlements in any order, expiries, restarts at any time, and other events between the start and the end of
a poll. Four smaller cores are modelled as independent modules: reading a client's network off its address,
the pairwise JSON comparison of the equivalence harness, the pause switch's date, and the circuit breaker
shared by interleaved requests.

## How it is laid out

| files | what they hold |
|---|---|
| `Budget`, `Settlements`, `Pacing` | window lists as sets of milliseconds: the merge, the uncovered length, charging and trimming; sequences of settlements; the pacing line |
| `GovernorModel` | tables, state row and every event as a function on values, with a history kept beside them |
| `Governor` | the governor object: one imperative method per event, each proved to make exactly the model's step at its time and to keep the invariant of runs |
| `Sanitizer`, `Ledger`, `Accounts`, `Reserves`, `Invariant`, `Events`, `Punctual`, `Overruns` | the invariant, its parts, that every event keeps it, and what each does to a ceiling |
| `Outcomes`, `Answers`, `Polls` | what each event does and answers, told without the functions that do it: in rows, ledger and numbers, and from a run's events |
| `CeilingTheorems`, `StateTheorems`, `MonthGuard`, `RequestTheorems`, `LateSettlement` | what follows over whole runs |
| `Text`, `Admission` | IPv4 and IPv6 text, and the network charged |
| `HttpDiff` | pairwise strip and exact comparison of JSON trees |
| `Pause` | the pause switch and the calendar behind it |
| `Upstream` | the circuit breaker and the requests that share it |

Time is in integer milliseconds, so a window list denotes a finite set of instants and a length is a
cardinality; CU-seconds are exact reals. A *run* is a sequence of possible events with a clock that never
goes back (`GovernorModel.IsRun`). The history records the leases issued and ended and a ledger of all
charges; nothing the program decides reads it.

The ceilings on compute hold on some runs and not on others, and exactly on which is proved: a day or a network
is within its ceiling at every moment if and only if every settlement *fits*
(`Overruns.CeilingIffSettlementsFit`), that is, its overrun, a difference of sets of instants known before it, is
at most what was left. No other event can pass a ceiling. Settlements that come within the API's deadline of their
admission, none while an expiry is overdue, always fit (`CeilingTheorems.Timely`); neither half of that is enough,
as two runs show (`LateSettlement`). `CeilingTheorems.CeilingOnEveryRun` bounds the excess of any run by the
milliseconds that *slipped*, those charged outside their lease's provisional interval and those a trim forgot too
early. The month's pacing line has the same exact condition between two applied polls. The ceilings on egress and
on counts need no hypothesis.

Where code and comments disagree, the model follows the code. A year below 100 in the pause switch is
refused, since the language builds such a year in the 1900s. Two identical JSON trees that hold a NaN are
reported as different, since the comparison of leaves is not reflexive on NaN. A poll error saved with more
than 64 characters loads shorter than it was saved. In each case the exact condition is proved.

## Model

| member | source | states |
|---|---|---|
| `Budget.NormalUnique` | edge/src/budget.ts:51-62 | A set of instants has at most one sorted list of non-empty, strictly separated windows. |
| `Budget.MergedMeaning` | edge/src/budget.ts:51-62 | Merging any list of windows, overlapping, touching, empty or unsorted, gives that list for the same set of instants. |
| `Budget.MergedIsTheNormalForm` | edge/src/budget.ts:51-62 | Two window lists cover the same instants exactly when the merge of one is the other, for the other in normal form; on such lists the merge is the identity. |
| `Budget.MergeIntervals` | edge/src/budget.ts:52-62 | The merge loop, extending or appending in place, builds that normal form. |
| `Budget.UncoveredLength` | edge/src/budget.ts:67-80 | The nested loops' total is the number of milliseconds in the union of the intervals and outside the union of the charged ones, for any overlapping inputs. |
| `Budget.AddChargedExact` | edge/src/budget.ts:100-106 | The windows kept are in normal form and all end after the horizon, and they hold exactly the instants, charged before or now, from which no gap precedes it. |
| `Budget.ChargeWindow` | edge/src/budget.ts:113-124 | A settlement's charge is the part of its window, idle tail included, that was not charged before. |
| `Settlements.OnlyOverCharges` | edge/src/budget.ts:94-106 | For arbitrary horizons, the charges add up to the length of the union of all windows plus what was trimmed and met again: trimming never under-charges. |
| `Settlements.ExactIffNothingForgotten` | edge/src/budget.ts:94-106 | The total is exactly the union if and only if no settlement overlaps a window trimmed before it. |
| `Settlements.ChargesTheUnion` | edge/src/budget.ts:94-124 | When no window reaches behind an earlier horizon the total is the length of the union. |
| `Settlements.OrderIndependent` | edge/src/budget.ts:94-124 | The same windows settled in another order, with other horizons, are charged the same total. |
| `Pacing.ResumesAtIsTheInverse` | edge/src/budget.ts:127-149 | For a need above the floor and at most the cap, the pacing line allows it from the returned time on and at no earlier millisecond. |
| `Pacing.ResumesAtOutsideTheLine` | edge/src/budget.ts:127-149 | A need above the cap is allowed at no time, and waits for the period's end; one at or below the floor is always allowed. |
| `Pacing.ResumesLater` | edge/src/budget.ts:136-149 | A need the line does not allow now is given a time after now, within the period. |
| `Pacing.SecondsReach` | edge/src/budget.ts:151-154 | The wait in seconds is the least positive one that reaches the time. |
| `Pacing.MidnightIsNext` | edge/src/budget.ts:33-36 | The next midnight is after now, within a day, and is the first instant of the next day. |
| `Pacing.LineRunsFrom10To85` | edge/src/budget.ts:126-135 | The line allows 10 CU-h until the period begins and 85 from its end on, and runs straight in between. |
| `GovernorObject.Governor.constructor` | edge/src/governor.ts:359-405 | Starting an instance is an event of a run: on the state any run left, at any later time, it deletes nothing and keeps the invariant. |
| `GovernorObject.Sanitize` | edge/src/governor.ts:1120-1154 | Loading keeps the possible windows, merged, and resets every other impossible field. |
| `GovernorObject.Governor.LoadState` | edge/src/governor.ts:801-813 | Loading reads the stored row through the sanitiser, and the initial state when there is none. |
| `GovernorObject.Governor.LeaseRows` | edge/src/governor.ts:859-861 | The rows read are those of the lease table, each once. |
| `GovernorObject.ListedCover` | edge/src/governor.ts:746-760 | The union of the provisional intervals of the leases filtered out of that list is the set of instants the group's live leases reserve. |
| `GovernorObject.Governor.ChargeLease` | edge/src/governor.ts:547-556 | An ending lease is billed what its window adds to those charged so far, on its own day's row and on both counters. |
| `GovernorObject.Governor.ChargePrefix` | edge/src/governor.ts:881-889 | A network's row is charged, and given a count back when refunded; a purged row is not recreated. |
| `GovernorObject.Governor.CloseLease` | edge/src/governor.ts:520-545 | A settled lease leaves the table and gives back the counts its kind and DB time refund, and nothing else changes. |
| `GovernorObject.Governor.Settle` | edge/src/governor.ts:520-560 | A settlement is the model's event, at its time, and keeps the invariant of runs: unknown ids do nothing, and otherwise the refund, the charge and the network's row happen together, once. |
| `GovernorObject.Governor.StaleLeases` | edge/src/governor.ts:899-905 | The stale leases are listed once each, oldest first. |
| `GovernorObject.Governor.ExpireLease` | edge/src/governor.ts:910-921 | One stale lease is charged as if settled at the API's deadline, and dropped. |
| `GovernorObject.Governor.ExpireLeases` | edge/src/governor.ts:899-925 | All stale leases are charged under the oldest one's horizon, and only then are the windows trimmed to what live leases can reach. |
| `GovernorObject.Governor.PurgeRows` | edge/src/governor.ts:928-933 | The first purge of a day leaves exact rows only: network rows of today alone, day rows of the retention, and the row of every live lease's day. |
| `GovernorObject.Governor.ScheduleAlarm` | edge/src/governor.ts:982-1003 | One alarm stays pending, no later than the next poll and the next midnight wanted; an earlier pending one is kept. |
| `GovernorObject.Governor.ComputeChecks` | edge/src/governor.ts:746-796 | The compute and egress checks deny, with code, scope, budget and time, exactly when the figures over the sets of reserved and charged instants pass their limits. |
| `GovernorObject.Governor.MonthlyChecks` | edge/src/governor.ts:769-795 | The same for a day's share of egress without Neon's figures, and for month-to-date egress and compute with them. |
| `GovernorObject.Governor.ComputeDenialFor` | edge/src/governor.ts:731-745 | The checks are made on the rows as they are after stale leases have expired, and the state is saved only if any did. |
| `GovernorObject.Governor.Admit` | edge/src/governor.ts:409-463 | An analysis's request is a possible event of the model, at its time, and keeps the invariant of runs: admitted with all its rows written under the drawn id, or denied with nothing changed but overdue expiries. |
| `GovernorObject.Governor.AdmitLookup` | edge/src/governor.ts:476-518 | The same for a metadata lookup, counted apart. |
| `GovernorObject.Governor.AlarmStart` | edge/src/governor.ts:710-720 | The alarm up to its fetch is a possible event of the model and keeps the invariant: expiry, purge once a day, and a poll exactly when one is due. |
| `GovernorObject.Governor.ApplyResult` | edge/src/governor.ts:1034-1057 | A poll's outcome keeps the state sound; figures it leaves are loaded again at every later time, with the poll's totals, and bridged from the totals of the poll before; an outcome that leaves none says why. |
| `GovernorObject.Governor.AlarmFinish` | edge/src/governor.ts:717-722 | The alarm after its fetch is an event of its own, works on the state as others left it in the meantime, and keeps the invariant. |
| `Outcomes.SettlementOutcome` | edge/src/governor.ts:520-560 | Every settlement, told in rows, ledger and numbers: a lease that is unknown changes nothing; a live one leaves; unless it never reached the origin or its DB time is 0, it is charged once, from its admission or from 5 s before its reported DB time, whichever is later, to 5 min after now, for the part no remembered window covers, on its day's and its network's row and both counters; and it gives back exactly the counts its kind and DB time call for. |
| `Outcomes.AlarmExpires` | edge/src/governor.ts:899-925 | An alarm charges every lease over ten minutes old, oldest first, once each, for 90 s from its admission and the idle tail, and keeps all others. |
| `Outcomes.StartKeepsThePossible` | edge/src/governor.ts:935-958 | On any stored rows, starting keeps exactly the days and networks that have begun, and the leases admitted by now, dated by their admission, with egress of at most 512 KiB and flags of 0 or 1. |
| `Answers.RequestAnswer` | edge/src/governor.ts:409-518 | A request, light, heavy or lookup, with Neon's figures or without, is admitted if and only if no budget, read off the history and the figures, is spent: counts of 60 and 300, 600 and 300, 200 and 2000; billed plus reserved compute of network and day; the day's or the month's egress; the pacing line. Otherwise it is denied in the name of the first that is, until midnight, the period's end, or the first time the line allows it. |
| `Answers.RequestEffect` | edge/src/governor.ts:435-463 | A request denied for a count changes nothing; any other charges the overdue leases in full; and an admitted one's lease, and no other, is issued and live. |
| `Polls.PollIsBegunIff` | edge/src/governor.ts:965-975 | On every run, an alarm begins a poll if and only if there is a key, the run's last admitted analysis came at most five minutes ago and no poll of the run began less than five minutes ago. |
| `Polls.RunsRemember` | edge/src/governor.ts:1034-1058 | On every run, the stored figures are all those of its last poll that ended with plausible ones (not negative, of a period of at most 32 days ending at most 32 days after it), and there are none before the first. |
| `Polls.PollEndTimes` | edge/src/governor.ts:1034-1058 | A poll's plausible figures are kept and clear the error; anything else leaves the figures and an error of at most 64 characters. |
| `Polls.AlarmIsTheEarliest` | edge/src/governor.ts:977-1003 | On every run, an admission, an alarm that polls not and the end of a poll leave an alarm pending at the earliest of the next poll, the next midnight and the alarm pending before; other events leave it as it was. |
| `Sanitizer.SanitizedIsClean` | edge/src/governor.ts:1120-1196 | Whatever was stored, the loaded windows are sorted, disjoint, not negative and at most 390 s ahead; times are past; bridge bases are ordered below the counters; the period is non-empty and at most 32 days. |
| `Sanitizer.KeepsThePossible` | edge/src/governor.ts:1110-1196 | Whatever else is stored beside it, loading keeps exactly the union of the possible windows, every possible counter and time, and figures a poll can have left, and resets every other field. |
| `Sanitizer.TransparentIffClean` | edge/src/governor.ts:801-821 | A load returns what was saved if and only if the saved state is of that kind. |
| `Sanitizer.SanitizeIsAFixpoint` | edge/src/governor.ts:1120-1154 | Loading again what was loaded, then or later, changes nothing. |
| `StateTheorems.LoadsWhatWasSaved` | edge/src/governor.ts:801-821 | On every run, at any later time, a load returns the saved state, exactly when its error text is not longer than what loading keeps; all else always survives. |
| `StateTheorems.RestartDeletesNothing` | edge/src/governor.ts:944-958 | On every run, a restart at any later time deletes no row. |
| `Events.RunsAreGood` | edge/src/governor.ts:409-1060 | Every run keeps the whole invariant: exact tallies in four tables, ceilings, bridge, sound state. |
| `StateTheorems.EverythingIsAccounted` | edge/src/governor.ts:520-560 | Every issued lease is live or ended, never both; it is charged exactly once if its ending calls for it and otherwise never; the kept rows of days and networks are the exact tallies of those leases. |
| `StateTheorems.CapsHold` | edge/src/governor.ts:417-433 | On every run no row passes 600 analyses, 300 heavy ones, 2000 lookups a day, or 60 analyses, 300 attempts, 200 lookups a network, and no count is negative. |
| `StateTheorems.ClampsNeverBite` | edge/src/governor.ts:536-543 | On every run, a refund finds a count to give back, so the clamps at zero never act. |
| `StateTheorems.RunsAddUp` | edge/src/governor.ts:445-458 | On every run, for the purged day, each network's row shows its share of the day's compute and the shares add up to the day's, the networks' attempts add up to analyses admitted plus refunded, their counts to at least those admitted, their lookups to the day's. |
| `StateTheorems.NetworkComputeAddsUp` | edge/src/governor.ts:864-889 | For the purged day, the compute on the networks' rows adds up to the compute on the day's row. |
| `StateTheorems.CountersHoldEveryCharge` | edge/src/governor.ts:864-876 | On every run, with polls in flight or not, the bridge counters are the sum of all charges ever made. |
| `StateTheorems.BridgeIsSincePreviousPoll` | edge/src/governor.ts:1034-1058 | From the second applied poll on, the bridge is exactly what was charged since the applied poll before the last. |
| `StateTheorems.MonthIsNeverUnderstated` | edge/src/governor.ts:778-791 | Whenever the period began: if Neon's figures cover what was charged in it up to the previous applied poll, which is nothing when it began later, the month's figures cover every charge since it began. |
| `StateTheorems.FirstPollRecountsItsDay` | edge/src/governor.ts:1041-1048 | The first applied poll's bridge is exactly the charges of the day the poll began. |
| `Ledger.ChargeMovesTime` | edge/src/governor.ts:547-557 | Ending a lease with a charge changes a group's billed plus reserved milliseconds by exactly its overrun, known before: the charge's part outside all that the group had reserved, plus the windows trimmed that its other leases still cover, less what the lease alone had reserved and does not use. |
| `Ledger.OverrunIsSlip` | edge/src/governor.ts:547-557 | An overrun is at most the time outside the lease's provisional interval plus what a trim forgot. |
| `Overruns.NextIsWithinIff` | edge/src/governor.ts:520-560 | Of all events, only a charged settlement can take a day or a network past its ceiling, and it does exactly when its overrun is more than what was left. |
| `Overruns.ExpireUse` | edge/src/governor.ts:899-925 | Expiry, however late, never raises what a group has billed and reserved. |
| `Overruns.CeilingIffSettlementsFit` | edge/src/governor.ts:746-767 | On every run, a day or a network is within its ceiling at every moment if and only if every settlement's overrun is at most what was left before it. |
| `Overruns.PunctualRunsFit` | edge/src/governor.ts:520-560 | Settlements within the API's deadline that find no expiry overdue always fit. |
| `CeilingTheorems.CeilingOnEveryRun` | edge/src/governor.ts:746-767 | On every run, for each day and each network, what is billed plus what live leases would still add is within the limit, but for what slipped. |
| `CeilingTheorems.DailyCeiling` | edge/src/governor.ts:762-767 | When its settlements fit, a day's billed and reserved compute is at most 10 CU-h, and 90/31 CU-h until a poll of Neon was applied. |
| `CeilingTheorems.TimelyDailyCeiling` | edge/src/governor.ts:762-767 | On timely runs this holds of every day, the lower figure whenever there is no Neon key. |
| `CeilingTheorems.DayRowWithinCeiling` | edge/src/governor.ts:762-767 | When its settlements fit, no stored day row shows more compute than its ceiling. |
| `CeilingTheorems.NetworkCeiling` | edge/src/constants.ts:74-81 | When its settlements fit, one network is billed and reserves at most a fifth of a day's ceiling. |
| `CeilingTheorems.NetworksSumToDay` | edge/src/governor.ts:864-889 | A day's compute is the sum of what its networks were charged. |
| `CeilingTheorems.NetworksNeeded` | edge/src/constants.ts:74-81 | When its networks' settlements fit, a day's compute is at most a fifth of its ceiling per network charged. |
| `CeilingTheorems.FiveNetworksNeeded` | edge/src/constants.ts:74-81 | Then charging a day more than four fifths of its ceiling, the lower one until a poll was applied, takes at least five networks. |
| `CeilingTheorems.ThirtyOneDaysOfCompute` | edge/src/constants.ts:137-138 | Until a poll was applied, with or without a key, any 31 consecutive days whose settlements fit are charged at most 90 CU-h. |
| `CeilingTheorems.DailyEgress` | edge/src/governor.ts:769-776 | Until a poll was applied, with or without a key, on every run a day's egress with its live leases' estimates is at most 1/31 of the stop. |
| `CeilingTheorems.ThirtyOneDaysOfEgress` | edge/src/constants.ts:145-152 | Until then, on every run, any 31 consecutive days are charged at most 4.5e9 bytes of egress. |
| `CeilingTheorems.ChargedAsAUnion` | edge/src/governor.ts:899-925 | On every run the counter is at least the charge for the union of all windows, in whatever order leases end; it is exactly that if and only if no charge counts again an instant that an earlier one was made for, and so whenever no settlement finds an expiry overdue. |
| `Punctual.RunsLoseNothing` | edge/src/governor.ts:547-557 | On runs where no settlement finds an expiry overdue, neither horizon ever trims a window that a live lease still overlaps, and no instant is charged twice. |
| `Punctual.RunsAreNotLate` | edge/src/governor.ts:520-560 | On runs whose settlements come within the deadline, no charge lies outside its lease's provisional interval. |
| `LateSettlement.SpareRequest` | edge/src/governor.ts:417-463 | Without a key, a light analysis is admitted when nothing is stale, fewer than 60 leases were issued so far, and its network, its day and the day's egress have room for it; it changes no figure but by its lease. |
| `LateSettlement.LateSettlementPassesTheDay` | edge/src/governor.ts:547-556 | A run of two events without a key, an admission settled two hours later, bills a day more than 90/31 CU-h. |
| `LateSettlement.LatenessAlonePassesTheShare` | edge/src/governor.ts:547-556 | A run where no settlement finds an expiry overdue, but two come late, bills a network more than its fifth of a day. |
| `LateSettlement.OverdueAlonePassesTheShare` | edge/src/governor.ts:547-556 | A run where every settlement is in time, but one finds an expiry overdue and trims a window the lost lease still covers, takes a network past its fifth of a day. |
| `MonthGuard.NextIsGuarded` | edge/src/governor.ts:778-795 | One event that applies no poll keeps Neon's figures and does not let the month's egress or compute pass its guard. |
| `MonthGuard.EgressStaysBelowTheStop` | edge/src/governor.ts:778-786 | Between applied polls, month-to-date egress with live leases, once below the stop, stays below it. |
| `MonthGuard.MonthStaysOnTheLine` | edge/src/governor.ts:787-795 | Between applied polls, month-to-date compute with live leases, once within the pacing line, passes it by no more than what slipped since. |
| `MonthGuard.NextIsOnLineIff` | edge/src/governor.ts:787-795 | Of all events but an applied poll, only a charged settlement can take the month past the line, and it does exactly when its overrun is more than what the line has left. |
| `MonthGuard.MonthStaysOnTheLineIff` | edge/src/governor.ts:787-795 | Between applied polls the month, once within the line, is within it at every moment if and only if every settlement's overrun is at most what the line has left. |
| `MonthGuard.TimelyMonthFits` | edge/src/governor.ts:787-795 | Settlements within the API's deadline that find no expiry overdue do. |
| `MonthGuard.MonthStaysWithin85CuHours` | edge/src/governor.ts:787-795 | While settlements fit it stays within the line, and so within 85 CU-h. |
| `RequestTheorems.DenialsAreHonest` | edge/src/governor.ts:1064-1079 | On every run a request is admitted under its own id, or denied until a time after now that its wait in seconds reaches without a second to spare. |
| `RequestTheorems.NetworkRowsEndWithTheirDay` | edge/src/governor.ts:928-1003 | On every run whose polls end on the day they began, all network rows are of the day last purged, and while any exists and no poll is in flight an alarm is pending by the end of that day. |
| `RequestTheorems.AdmissionsArmTheAlarm` | edge/src/governor.ts:445-463 | After every admission, polls in flight or lost notwithstanding, an alarm is pending by the end of that day. |
| `RequestTheorems.OnlyAdmissionsAddRows` | edge/src/governor.ts:878-889 | No settlement, expiry, alarm, poll or restart creates a network row, so a late settlement does not recreate a purged one. |
| `Admission.LegalSpellingsRead` | edge/src/admission.ts:93-118 | Every spelling of an address by section 2.2 of RFC 4291, in any case, with leading zeros, one `::` for one or more groups and a dotted quad at the end, reads as that address. |
| `Admission.ReadsExactlyTheLegalSpellings` | edge/src/admission.ts:93-118 | A text reads as an IPv6 address if and only if it is a legal spelling of that address; every other text is refused. |
| `Admission.ReadsAddresses` | edge/src/admission.ts:104-118 | What is read is eight groups of 16 bits. |
| `Admission.NamesAreDistinct` | edge/src/admission.ts:126-138 | Different networks get different names, across both families and the shared `unknown`. |
| `Admission.NamesLookLikeThis` | edge/src/admission.ts:120-138 | Names are `203.0.113.0/24`, `2001:0db8:000a::/48` and `unknown`. |
| `Admission.ChargedTogetherIffSameNetwork` | edge/src/admission.ts:126-138 | Two clients are charged to the same name exactly when they are in the same /24, the same /48, or both have no readable address. |
| `Admission.ChargedByAddress` | edge/src/admission.ts:126-138 | However an IPv6 address is spelled, it is charged to the network of the address. |
| `Admission.MappedLikeDotted` | edge/src/admission.ts:120-135 | An IPv4 address is charged to its /24 both in its dotted form and in every IPv4-mapped spelling. |
| `HttpDiff.Strip` | scripts/equivalence/httpdiff.py:441-463 | Fills both outputs as the one-sided strip of each tree against the other (so swapping the inputs swaps the outputs), and notes exactly the whitelisted values that differ, each once. |
| `HttpDiff.Exact` | scripts/equivalence/httpdiff.py:487-500 | Appends exactly the reports of two trees to the list it is given, each once, below its path, and keeps what was there. |
| `HttpDiff.ReportsAreLocalDifferences` | scripts/equivalence/httpdiff.py:487-500 | A report is a difference in keys, length, type or value at a place both trees have, and every such difference is reported. |
| `HttpDiff.NotesAreWhitelistedDifferences` | scripts/equivalence/httpdiff.py:441-463 | A note is a differing whitelisted key at a place both trees have outside whitelisted values, and every such difference is noted. |
| `HttpDiff.EqualIffCanonical` | scripts/equivalence/httpdiff.py:449-451 | Two whitelisted values count as equal exactly when they are the same tree with numbers and truth values taken as numbers, but for NaN by itself. |
| `HttpDiff.AbsentReadsAsItsText` | scripts/equivalence/httpdiff.py:448-451 | A whitelisted key one side lacks is noted as `<absent>`, unless the other side holds that text. |
| `HttpDiff.LocalIs` | scripts/equivalence/httpdiff.py:489-500 | At one place, what differs is the keys one side alone has, the two lengths, or two values that are not alike. |
| `HttpDiff.SameMeansEqual` | scripts/equivalence/httpdiff.py:487-500 | The exact comparison is silent on equal trees without NaN, types included, and only on those. |
| `HttpDiff.StrippedIsErased` | scripts/equivalence/httpdiff.py:441-463 | Stripped against each other two trees become equal exactly when, each alone, they are equal without the whitelisted keys at every depth. |
| `HttpDiff.EquivalentIffErasedEqual` | scripts/equivalence/httpdiff.py:441-500 | Comparing the stripped trees reports nothing if and only if the two trees without those keys are equal and hold no NaN. |
| `HttpDiff.NaNIsReportedAgainstItself` | scripts/equivalence/httpdiff.py:441-500 | A tree is reported against itself exactly when it holds a NaN outside the whitelisted keys. |
| `HttpDiff.Compare` | scripts/equivalence/httpdiff.py:565-576 | An answer that is not an analysis result is equivalent exactly when its erased tree is, with the pair's whitelist. |
| `HttpDiff.WhatMayDiffer` | scripts/equivalence/httpdiff.py:388-472 | Answers of the two pairs compare as equal exactly when they are equal without the data version and the analysis key at every depth (and hold no other NaN); those of any other pair when they are equal. |
| `Pause.DaysFollowTheCalendar` | edge/src/pause.ts:63-72 | The dates read off day numbers start at 1970-01-01 and go on day by day through the Gregorian calendar, backwards too. |
| `Pause.DateOfIsTheInverse` | edge/src/pause.ts:63-72 | Every date of the calendar is read off the day it is built on. |
| `Pause.ReadsBack` | edge/src/pause.ts:63-75 | Fields, past their range or not, read back to themselves exactly when they name an existing date and time in year 100 or later. |
| `Pause.ReadsExactlyTheTimes` | edge/src/pause.ts:49-76 | A text yields a time if and only if it has one of the three shapes and names such a date and time; the time is the only whole second with those fields. |
| `Pause.EverySecondCanBeWritten` | edge/src/pause.ts:49-76 | Every whole second of years 100 to 9999 is what its text reads as, shorter where its last fields are zero. |
| `Pause.PausesUntilItsDate` | edge/src/pause.ts:79-114 | A switch set to a date pauses until that date and no longer, reports a text that reads back to it, and asks for the shortest wait in whole seconds that reaches it. |
| `Pause.UnreadableTextPauses` | edge/src/pause.ts:98-105 | Any other text but `unknown` pauses without a date, and says it was unreadable. |
| `Pause.SwitchIs` | edge/src/pause.ts:79-113 | The switch is off exactly when it is blank or its time has come; it pauses without a date, for an hour, exactly when its text is no time, and is then unreadable unless it spells `unknown` in any case; a reason is reported exactly when it is one of the three. |
| `Pause.TrimIs` | edge/src/pause.ts:83-85 | Trimming takes the white space off both ends, and all of it. |
| `Upstream.CircuitBreaker.RemainingOpenMs` | edge/src/upstream.ts:32-35 | The time left is positive exactly when the log has at least the threshold of rejections since the last answer, the last of them under the open time ago, and is then the rest of that time. |
| `Upstream.CircuitBreaker.RecordFailure` | edge/src/upstream.ts:37-40 | The two counters keep standing for the log, one rejection longer. |
| `Upstream.CircuitBreaker.RecordSuccess` | edge/src/upstream.ts:42-45 | The two counters keep standing for the log, one answer longer. |
| `Upstream.Origin.Begin` | edge/src/upstream.ts:60-69 | A call up to its first fetch: refused for the rest of the open time, or logged as fetching. |
| `Upstream.Origin.FetchAnswered` | edge/src/upstream.ts:69-72 | Any answer is final and closes the breaker. |
| `Upstream.Origin.FetchRejected` | edge/src/upstream.ts:73-79 | The first rejection leads to one more fetch without another check, the second to the end. |
| `Upstream.RunsAreSound` | edge/src/upstream.ts:56-80 | For any interleaving, each request's outcome counts its fetches, rejections and answers; a refused one found the breaker open for the time it was told, any other found it closed; every fetch follows its request's check. |
| `Upstream.AtMostTwoFetches` | edge/src/upstream.ts:68-79 | No request makes more than two fetches. |
| `Upstream.SecondRejectionOpens` | edge/src/constants.ts:18-22 | With the shipped settings the second rejection in a row opens the breaker for 30 s, and the first does not. |
| `Upstream.FetchesWhileOpenBeganBefore` | edge/src/upstream.ts:56-80 | A fetch made while the breaker is open belongs to a request checked before the rejection that opened it. |
| `Upstream.FewFetchesWhileOpen` | edge/src/upstream.ts:56-80 | While every request that starts is refused, the origin gets at most one more fetch from each request that was waiting at its first. |

## Left out

- Rounding of floating-point numbers: compute, shares and byte counts are exact integers and reals.
- Fractions of a millisecond: clock readings, stored windows and the reported DB time are whole milliseconds, and so are the times a load accepts.
- Days as text: a UTC day is its number since 1970-01-01, so stored day texts that are no date, and SQLite's own date range in the start-up deletion, are not modelled.
- Rows written by another program: stored counts are numbers (a negative one reads as spent); counts that are text or not finite are not modelled.
- The order in which leases admitted in the same millisecond expire, and in which keys of an object are visited: every order is allowed. The order of reports and notes, and so the cut to the first 25 reports, is not part of this model.
- SQL, the storage alarm itself, remote calls and the fetch of Neon's figures: a table is a map, the pending alarm is the time stored for it, and a poll ends with parsed figures or an error text.
- Polls may overlap, and one may outlive a restart: the model allows more runs than the alarm does.
- `edge/src/governor.ts` lines 562-707, the operations report, and the rounding in it: display only.
- HMAC of a network's name and of the lease id: a network is an opaque name and each drawn lease id is fresh.
- `settleReportFor` and the other response classification of `edge/src/admission.ts`: tables of branches; every kind and every DB time can be settled. A request whose connection failed twice is refunded as the code does; the model does not claim it never computed.
- Lower-casing: only what can become an ASCII letter is mapped; no other character can take part in an address or in the word `unknown`.
- HttpDiff.Compare: does not model the comparison of analysis results, status codes and headers, because `compare_results` is not part of this model; negative zero and zero are one number, as they compare equal.
- Path texts in reports: a path is a list of steps, since its text can be ambiguous.
- CeilingTheorems.DailyCeiling: does not bound a run whose settlements do not fit, because there is no such bound; CeilingTheorems.CeilingOnEveryRun gives its excess.
- MonthGuard.EgressStaysBelowTheStop: between applied polls only; a poll can bring any figures.
- RequestTheorems.NetworkRowsEndWithTheirDay: does not claim an alarm pending for midnight while a poll is in flight, nor when one ends on another day than it began, because the alarm clears its own time before it fetches; a poll killed by a restart stays in flight in the model.
- Cancelled pieces of a call to the origin: a fetch that never ends stays pending in the model.
- Load tests, deployment, snapshots, replay scripts, the site and its tests: no logic that another part here relies on.
