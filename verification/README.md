# A verified model of the WeiCall SIP client

This project models the parts of the client that carry its protocol logic, and proves what they promise.

* **The Contact header parser** (`URI` in `CloudCall2Constants.h`). An object with two fixed 50-character buffers and
  a 16-bit port is overwritten by every parse of a NUL-terminated header. `CString` and `Decimal` hold the C library
  routines that it is written with, as loops over arrays; `ContactHeader` says where a header is cut, as a function of
  its text; `ContactUri` is the object; `ContactRoundTrip` says exactly for which contacts printing and parsing are
  inverse.
* **The mobile number test** (`IsMobileNumber`). `Regex` gives anchored regular expressions a meaning and a matcher
  proved equal to it; `MobileNumber` holds the four patterns and the exact relations of their languages.
* **The pinyin tables** (`pinyin.c`). `Pinyin` is the packed format, the full lookup and the shortcut for the first
  reading.
* **The INVITE transactions** of the SIP stack. `Fsm` is the table-driven state machine with its ordered list of rows;
  `Timers` the manager with its pending list and its queue of callbacks; `InviteClient` and `InviteServer` the two
  tables, what each row puts out, returns and does to the timers, and the proof that dispatch through the ordered list
  is the transition diagram. `InviteClientRuns` and `InviteServerRuns` are about any interleaving of messages, errors,
  the passing of time, and timer callbacks, late ones included; `InviteClientTheorems` and `InviteServerTheorems`
  about what such runs put out; `InviteClientTermination` and `InviteServerTermination` about when they end.
  `InviteClientDelivery` and `InviteServerDelivery` say, event by event and in figures, what is sent, passed up and
  reported, and when. `InviteClientReentrancy` and `InviteServerReentrancy` add dialogs that act on the transaction
  from within its callbacks, and bring every such nest of calls back to a run. `InviteClientTransaction` and
  `InviteServerTransaction` are the objects, whose fields the rows update in place; a ghost history makes every
  theorem about runs one about the object. `InviteAgreement` joins a client and a server by a network that loses,
  duplicates, delays and reorders messages, and `InviteReopening` says what further copies of the request put at risk.

## Main results

* Parsing computes the slices of the header for every header on which the code has a defined result, on a used object
  as on a new one, byte for byte (`ContactUri.Uri.Parse`, `ContactUri.ReusedLikeNew`).
* Parsing a printed contact gives its parts back **if and only if** `ContactRoundTrip.Survives` holds, a condition on
  the characters and the lengths of the parts (`ContactRoundTrip.RoundTrip`).
* The four patterns accept exactly the prefixes that the comments list, the general pattern is covered by the
  carriers' **if and only if** `\d` means the ASCII digits, and overlaps and differences are exact.
* Packing indexes loses nothing, on lists of any length, and unpacking loses nothing exactly on the format that the
  tables use; looking a character up in packed tables finds its list of readings.
* Every run of a client transaction produces a well-behaved sequence of outputs and sends no more requests than
  doubling intervals leave time for. So does every run of a server transaction: 100 first, the user asked once, one
  outcome.
* In every run the user of a client is given, in order, exactly the responses that arrive while they are to be passed
  up, and exactly those that arrive while they are to be acknowledged are acknowledged. In every run the network is
  sent, in order, exactly the 100 of a server, the responses that its user passes down while they are to be sent, and
  the latest of these for each retransmitted request and each callback of timer G.
* In no run is a timeout reported before the interval of timer B has passed, or a state ended by its timer before the
  interval of that timer has passed since the state was entered.
* Whatever happens to a transaction, no state with a timer of its own outlasts the timer's deadline at a moment when
  the timer manager has caught up. After every run, the manager's threads catch up in whatever order they take timers
  and callbacks, within a bound, **if and only if** timer A of a waiting client, or G of a waiting server, is not in
  use with an interval of zero.
* Every nest of calls, in which callbacks act on the transaction that called them, comes to the same as a run, with
  the same outputs in the same order, except that the removal is asked for again **if and only if** the transaction
  ends inside one of the calls.
* A removed client transaction has told its user the outcome **if and only if** it did not end in one of three ways:
  by a cancellation before any final response, by a failure whose ACK could not be sent, or by a further provisional
  response that the user refused. A removed server transaction has reported a failure if and only if an error or timer
  H ended it.
* In every run of a client and a server over the network in which one server transaction takes all copies of the
  request, the two users agree on the outcome, and a server that considers its response confirmed has been
  acknowledged for that very response. With a second server transaction the users can come to disagree, after any run,
  **if and only if** the client still waits or its user knows an outcome, and a server can be misled if and only if
  the client still waits or an ACK is under way.

## What the code does differently from what it says

The code has been followed in each case.

* `ios-cloudcall/Classes/CloudCall2Constants.h:78-82`: the prefixes 145 and 183 are documented, but the general
  pattern lacks them; the carriers' patterns add them (`MobileNumber.DifferencesFromGeneral`).
* `ios-cloudcall/Classes/CloudCall2Constants.h:137-141`: the position found for "sip:" is not used. The user always
  starts at offset 5, which is right exactly if "sip:" stands at offset 1 (`ContactHeader.UserIsExact`;
  `ContactHeader.DisplayNameShiftsUser` is an accepted header where it does not).
* `ios-cloudcall/Classes/CloudCall2Constants.h:152-162`: without a port, any ';' takes precedence over any '>', so a
  parameter after the closing '>' makes that '>' part of the host (`ContactRoundTrip.ClosingAngleLeaksIntoHost`;
  `ContactHeader.HostIsExact` says exactly when the host ends where it should).
* `ios-cloudcall/Classes/CloudCall2Constants.h:147` and `164`: a user or host of exactly 50 characters fills its
  buffer without a terminator; shorter ones are always terminated (`CString.PaddedReadsBack`).
* `ios-cloudcall/Classes/CloudCall2Constants.h:170-173`: with a port, parameters may stand on either side of the '>',
  with one exception: a port text of 19 digits (`ContactRoundTrip.ParametersMayMove`,
  `ContactRoundTrip.NineteenDigitsMayNotMove`).
* `ngnstack/tinySAK/src/tsk_fsm.c:293-299`: rows for any action are meant to sink to the bottom of the list, but the
  test that would lift the others above them looks at the wrong entry, and they stay where they were declared
  (`Fsm.AnyActionsAreNotReordered`, `Fsm.HiddenByAnyAction`).
* `ngnstack/tinySIP/src/transactions/tsip_transac_ict.c:513-538`: on a 2xx, timers A and B are said to be cancelled,
  but they are scheduled again (`InviteClientTheorems.SuccessRearmsTimers`). This is harmless: their callbacks have no
  transition in `Accepted` (`InviteClientRuns.LateTimer`).
* The rows "Any -> Terminated" of both tables do not apply in `Started`, whose own row for any action stands above
  them (`InviteClientTheorems.ErrorsEndOnceStarted`, `InviteServerTheorems.ErrorsEndOnceStarted`).
* `ngnstack/tinySIP/src/transactions/tsip_transac_ist.c:577-597`: the comment has retransmitted requests absorbed in
  `Accepted`; the code sends the last response again. A transport error is passed to the dialog as an incoming message
  that is null (`PassUpNothing`).
* `ngnstack/tinySIP/src/transactions/tsip_transac_ict.c:476-478`: a failure is acknowledged and passed up, but if the
  ACK cannot be sent the transaction is removed and the user told nothing (`InviteClientTheorems.FailedAckIsSilent`).
* `ngnstack/tinySIP/src/transports/tsip_transport_layer.c:63-66`: the comment speaks of a missing transaction, but the
  branch is also taken when the transaction fails on the message. Either way another copy of the request opens a
  second server transaction (`InviteReopening.AgreementCanBeLost`, `InviteReopening.ServerCanBeMistaken`).
* `ngnstack/tinySAK/src/tsk_fsm.c:120-195`: the termination callback is to be called when the machine enters its final
  state. When the dialog of a rejected or refused call ends, it cancels its transactions from within the callback
  (`ngnstack/tinySIP/src/dialogs/tsip_dialog_invite.c:1483-1504`); the inner action calls the termination callback,
  and the outer one calls it again (`InviteClientReentrancy.RejectionRemovesTwice`,
  `InviteServerReentrancy.RefusalRemovesTwice`).
* `ngnstack/tinySIP/src/transactions/tsip_transac_ist.c:509-529`: a retransmission that cannot be sent removes the
  transaction, and its user hears nothing (`InviteServerTheorems.FailedResendIsSilent`).
* The default of T1 is 2000 milliseconds, not 500. Intervals are parameters here, except T2.

## Model

| member | source | states |
|---|---|---|
| CString.StrLen | ios-cloudcall/Classes/CloudCall2Constants.h:129 | The scan stops at the first NUL: its result is the length of the text in the buffer. |
| CString.StrStr | ios-cloudcall/Classes/CloudCall2Constants.h:137-152 | First occurrence of a text at or after a position, before the terminator, or null; `FirstText` is defined by having no earlier occurrence. |
| CString.StrChr | ios-cloudcall/Classes/CloudCall2Constants.h:154-173 | First occurrence of a character at or after a position, or null. |
| CString.StrNCpy | ios-cloudcall/Classes/CloudCall2Constants.h:147-180 | Writes the text up to the limit, pads with NULs up to the limit, and leaves the rest of the buffer alone. |
| CString.CopySlice | ios-cloudcall/Classes/CloudCall2Constants.h:147-180 | Into a cleared buffer, the slice and nothing but NULs after it. |
| CString.MemZero | ios-cloudcall/Classes/CloudCall2Constants.h:191-195 | The whole buffer is NUL. |
| CString.PaddedReadsBack | ios-cloudcall/Classes/CloudCall2Constants.h:187-188 | A padded buffer reads back as its text, and is terminated if and only if the text is shorter than the buffer. |
| CString.CopyNeedsClearedBuffer | ios-cloudcall/Classes/CloudCall2Constants.h:191-195 | Why `parse` clears first: a copy of exactly the text's length reads back as the text if and only if the old contents happen to go on with a NUL. |
| Decimal.Atoi | ios-cloudcall/Classes/CloudCall2Constants.h:182 | On a terminated buffer, the number of the white space, sign and digits grammar. |
| Decimal.FirstCharDecides | ios-cloudcall/Classes/CloudCall2Constants.h:182 | Exactly six white-space characters are passed over; anything else but a sign or a digit makes the number 0. |
| Decimal.AtoiReads | ios-cloudcall/Classes/CloudCall2Constants.h:182 | For any spaces, sign, digits and remainder: the signed decimal value of the digits, whatever stops them. |
| Decimal.LeadingZeros | ios-cloudcall/Classes/CloudCall2Constants.h:182 | Leading zeros do not change the value. |
| Decimal.ValueOfNumeral | ios-cloudcall/Classes/CloudCall2Constants.h:182 | The decimal numeral of a number has that number as its value, without leading zeros. |
| Decimal.NumeralIsInverse | ios-cloudcall/Classes/CloudCall2Constants.h:178-189 | Printing gives a digit string back if and only if it has no leading zeros and the number is its value. |
| ContactHeader.AcceptsExactly | ios-cloudcall/Classes/CloudCall2Constants.h:127-185 | A header is accepted if and only if it contains "sip:" and '@' and, depending on whether ':' follows the '@', the characters that end host or port. |
| ContactHeader.StoredPort | ios-cloudcall/Classes/CloudCall2Constants.h:169-189 | For every accepted header: without a ':' after the '@' the port is 0, and otherwise it is below 65536 and differs from the number of the port text by a multiple of 65536. |
| ContactHeader.UndefinedExactly | ios-cloudcall/Classes/CloudCall2Constants.h:127-189 | The code has no defined behaviour on exactly the headers whose names overrun 50 characters, whose port text overruns 20, whose number is no `int`, or whose ends lie before their starts. |
| ContactHeader.RejectionStates | ios-cloudcall/Classes/CloudCall2Constants.h:129-176 | After a rejection both names are empty, except when only the end of the port is missing: then they are the two slices. |
| ContactHeader.UserIsExact | ios-cloudcall/Classes/CloudCall2Constants.h:137-147 | The user is the text between the first "sip:" and the first '@' if and only if "sip:" stands at offset 1. |
| ContactHeader.DisplayNameShiftsUser | ios-cloudcall/Classes/CloudCall2Constants.h:137-147 | An accepted header with a display name, and the wrong user that it gives. |
| ContactHeader.HostIsExact | ios-cloudcall/Classes/CloudCall2Constants.h:150-164 | The host ends at the first ':', ';' or '>' after the '@' if and only if that character is the one that the code looks for first. |
| ContactRoundTrip.RoundTrip | ios-cloudcall/Classes/CloudCall2Constants.h:127-185 | Parsing a printed contact, with a port or without, gives user, host and port back if and only if the contact meets the stated conditions on characters and lengths. |
| ContactRoundTrip.OutcomeWithPort | ios-cloudcall/Classes/CloudCall2Constants.h:169-184 | The complete outcome for printed contacts with a port: the parts, rejection with both names filled, or undefined, each under its exact condition. |
| ContactRoundTrip.SurvivorsAreExpected | ios-cloudcall/Classes/CloudCall2Constants.h:127-185 | A printed contact that meets the conditions is accepted with exactly its parts. |
| ContactRoundTrip.PortSurvives | ios-cloudcall/Classes/CloudCall2Constants.h:178-189 | For every printed contact with a port that survives, the port stored is the number of the digits, if that is below 65536, and differs from it by a multiple of 65536 in any case. |
| ContactRoundTrip.NumericPortIsExpected | ios-cloudcall/Classes/CloudCall2Constants.h:178-189 | A port below 65536 printed in decimal is expected back as itself, and always fits buffer and `int`. |
| ContactRoundTrip.PortPrintsBack | ios-cloudcall/Classes/CloudCall2Constants.h:178-189 | The stored port, printed, is the text that was parsed if and only if that text is a canonical numeral below 65536. |
| ContactRoundTrip.ParametersMayMove | ios-cloudcall/Classes/CloudCall2Constants.h:170-182 | With a port, parameters inside and outside the '>' parse alike, if and only if the port text is not one that just fits its buffer. |
| ContactRoundTrip.NineteenDigitsMayNotMove | ios-cloudcall/Classes/CloudCall2Constants.h:170-182 | Nineteen zeros are port 0 with the parameters inside the '>', and overrun the buffer with them outside. |
| ContactRoundTrip.ClosingAngleLeaksIntoHost | ios-cloudcall/Classes/CloudCall2Constants.h:153-164 | Without a port, parameters after the '>' put the '>' into the host, for every user, host and parameters. |
| ContactUri.Uri.constructor | ios-cloudcall/Classes/CloudCall2Constants.h:125 | A new object is empty. |
| ContactUri.Uri.Clear | ios-cloudcall/Classes/CloudCall2Constants.h:191-195 | From any state: both buffers all NUL, port 0. |
| ContactUri.Uri.Parse | ios-cloudcall/Classes/CloudCall2Constants.h:127-185 | From any valid state: the result is the acceptance of the header, and the complete contents of both buffers and the port are those of its cut, on every exit; the port is below 65536 and differs from the number read by a multiple of 65536. |
| ContactUri.Uri.ParseHeader | ios-cloudcall/Classes/CloudCall2Constants.h:129-184 | On a cleared object: the same for the header text alone, without touching the header. |
| ContactUri.Uri.ParseHost | ios-cloudcall/Classes/CloudCall2Constants.h:150-184 | The part after the '@' gives host, port and result of the cut and leaves the user alone. |
| ContactUri.Uri.CopyHost | ios-cloudcall/Classes/CloudCall2Constants.h:164 | The host buffer holds exactly the slice; user and port are untouched. |
| ContactUri.Uri.FindHostEnd | ios-cloudcall/Classes/CloudCall2Constants.h:151-162 | The searches find the end of the host, and stop the parse there exactly if no ':' follows the '@'. |
| ContactUri.Uri.ParsePort | ios-cloudcall/Classes/CloudCall2Constants.h:169-184 | Sets the port to the low 16 bits of the number read between the ':' and the port's end, or rejects with both names kept. |
| ContactUri.Uri.ReadPort | ios-cloudcall/Classes/CloudCall2Constants.h:178-182 | The local buffer is terminated, and its number is that of the slice. |
| ContactUri.ReusedLikeNew | ios-cloudcall/Classes/CloudCall2Constants.h:125-195 | History independence: an object in any valid state and a new one give the same result and the same bytes for the same header. |
| Regex.MatcherIsCorrect | ios-cloudcall/Classes/CloudCall2Constants.h:105-113 | The matcher finds a match between two positions if and only if the language semantics has one. |
| Regex.AnchorsAreRedundant | ios-cloudcall/Classes/CloudCall2Constants.h:82-97 | For a match of the whole text, '^' and '$' make no difference, line terminators notwithstanding. |
| MobileNumber.MobileLanguage | ios-cloudcall/Classes/CloudCall2Constants.h:82 | The language of the general pattern, by number prefix. |
| MobileNumber.ChinaMobileLanguage | ios-cloudcall/Classes/CloudCall2Constants.h:84-87 | The language of CM is exactly the documented prefixes. |
| MobileNumber.ChinaUnicomLanguage | ios-cloudcall/Classes/CloudCall2Constants.h:89-92 | The language of CU is exactly the documented prefixes. |
| MobileNumber.ChinaTelecomLanguage | ios-cloudcall/Classes/CloudCall2Constants.h:94-97 | The language of CT is exactly the documented prefixes, with an ASCII digit after them. |
| MobileNumber.OneScanDecides | ios-cloudcall/Classes/CloudCall2Constants.h:105-120 | The disjunction of the four matches equals one scan for length, digits and prefix. |
| MobileNumber.Uncovered | ios-cloudcall/Classes/CloudCall2Constants.h:82-97 | Exactly what the general pattern matches beyond the carriers'. |
| MobileNumber.CarriersCoverExactly | ios-cloudcall/Classes/CloudCall2Constants.h:82-97 | The carriers' patterns cover the general one if and only if `\d` matches nothing but ASCII digits. |
| MobileNumber.SomeCarrierDecides | ios-cloudcall/Classes/CloudCall2Constants.h:110-113 | With ASCII digits a number is accepted if and only if some carrier's pattern matches. |
| MobileNumber.DifferencesFromGeneral | ios-cloudcall/Classes/CloudCall2Constants.h:82-97 | CT is contained in MOBILE; CM adds exactly the numbers with 183, CU exactly those with 145. |
| MobileNumber.CarrierOverlaps | ios-cloudcall/Classes/CloudCall2Constants.h:87-97 | CM and CU, and CU and CT, are disjoint; CM and CT share exactly 1340 to 1348. |
| Pinyin.DecodeOfPack | common-ngn-stack/utils/pinyin.c:51-57 | Unpacking inverts packing on lists of any length, and packing yields the canonical layout. |
| Pinyin.PackOfDecode | common-ngn-stack/utils/pinyindata.h:1145-5326 | Packing inverts unpacking if and only if a second byte is used only after a first byte of 255. |
| Pinyin.DecodeIsInjective | common-ngn-stack/utils/pinyin.c:51-57 | Different canonical rows decode to different lists. |
| Pinyin.AllPinyinsByUnicode | common-ngn-stack/utils/pinyin.c:35-61 | The count and a new array of the names at the byte sums of row `uni - 0x4E00`, or 0 and null if and only if there are none; all accesses are in bounds. |
| Pinyin.ShortcutRefinesFull | common-ngn-stack/utils/pinyin.c:14-33 | The shortcut is null if and only if there are no readings, and otherwise the first of them. |
| Pinyin.RowsInOrder | common-ngn-stack/utils/pinyin.c:37-55 | The readings of code point 0x4E00 + k are the names at the byte sums of row k, up to 0x9FA5; all others have none. |
| Pinyin.NothingOutside | common-ngn-stack/utils/pinyin.c:16-19 | Below 0x4E00 and above 0x9FA5 neither lookup finds anything. |
| Pinyin.PackedRowIsFound | common-ngn-stack/utils/pinyin.c:14-61 | For every k up to 20901, the list packed for row k is what both lookups find under 0x4E00 + k. |
| Pinyin.LookupInPackedTables | common-ngn-stack/utils/pinyin.c:35-61 | Tables packed from lists of readings are well-formed, and looking any code point up gives its list back. |
| Fsm.PushDescending | ngnstack/tinySAK/src/tsk_list.c:309-337 | The loop inserts before the first entry that compares less, or at the end. |
| Fsm.Set | ngnstack/tinySAK/src/tsk_fsm.c:62-88 | The list is the one that inserting the declared rows in turn leads to. |
| Fsm.BuildPartitions | ngnstack/tinySAK/src/tsk_fsm.c:280-304 | That list is a stable partition: the rows for one state in order of declaration, then the rows for any state. |
| Fsm.SpecificThenWild | ngnstack/tinySAK/src/tsk_fsm.c:280-304 | A table declared in that order is left alone. |
| Fsm.Find | ngnstack/tinySAK/src/tsk_fsm.c:141-176 | The scan finds the first row that applies. |
| Fsm.SpecificWins | ngnstack/tinySAK/src/tsk_fsm.c:284-290 | A row for the current state wins over every row for any state, wherever they were declared. |
| Fsm.OwnBlockDecides | ngnstack/tinySAK/src/tsk_fsm.c:141-176 | In a table declared state by state, only the block of the current state and the rows for any state decide. |
| Fsm.AnyActionsAreNotReordered | ngnstack/tinySAK/src/tsk_fsm.c:293-299 | Rows for any action stand last in the list if and only if they were declared last. |
| Fsm.HiddenByAnyAction | ngnstack/tinySAK/src/tsk_fsm.c:293-299 | A row for any action, declared first, hides a later row that applies. |
| Timers.NeverEarly | ngnstack/tinySAK/src/tsk_timer.c:189-210 | Whatever happens in between, the callback of a schedule is not queued before its interval has passed. |
| Timers.TimeIsCounted | ngnstack/tinySAK/src/tsk_timer.c:306-332 | After any moves the clock has gone on by exactly the time that passed in them. |
| Timers.FiresOnce | ngnstack/tinySAK/src/tsk_timer.c:272-278 | A callback that has been taken up is never queued again, whatever happens afterwards. |
| Timers.CancelPrevents | ngnstack/tinySAK/src/tsk_timer.c:214-242 | Cancelling prevents the callback in every continuation if and only if it was not queued already. |
| Timers.IdleIsCaughtUp | ngnstack/tinySAK/src/tsk_timer.c:306-345 | Looking at the head of the list alone, the threads wait if and only if no timer at all is overdue and no callback is queued. |
| InviteClient.DispatchIsTransition | ngnstack/tinySIP/src/transactions/tsip_transac_ict.c:235-298 | For every state and action, the first row of the ordered list that applies is the transition of the diagram. |
| InviteClientTransaction.Transaction.constructor | ngnstack/tinySIP/src/transactions/tsip_transac_ict.c:300-318 | The list is built from the table, the timers have their intervals, timer D zero over reliable transports, and the object is valid. |
| InviteClientTransaction.Transaction.Lookup | ngnstack/tinySAK/src/tsk_fsm.c:141-158 | Scanning the list gives the transition of the diagram. |
| InviteClientTransaction.Transaction.Act | ngnstack/tinySAK/src/tsk_fsm.c:120-195 | One action on the object, through its list and around the calls that its user makes meanwhile, is one nested action of the machine on values. |
| InviteClientTransaction.Transaction.Receive | ngnstack/tinySIP/src/transactions/tsip_transac_ict.c:154-183 | The delivery that the response calls for is appended, whatever its user does meanwhile; without that, exactly that, with the new state and the exact deadline of its timer. What it returns is given by the state, the code and the results; anything but 0 has ended the transaction. The word is kept. |
| InviteClientTransaction.Transaction.Fail | ngnstack/tinySIP/src/transactions/tsip_transac_ict.c:185-199 | An error or a cancellation appends exactly its report and the removal, and ends the transaction; the user is left without the outcome exactly for a cancellation before a final response. |
| InviteClientTransaction.Transaction.Callback | ngnstack/tinySAK/src/tsk_timer.c:272-278 | A callback puts out what its timer stands for, keeps the word, is over for good, and ends the transaction if it is that of the state's timer, for B not before its interval has passed. |
| InviteClientTransaction.Transaction.Elapse | ngnstack/tinySAK/src/tsk_timer.c:306-345 | What the manager does meanwhile keeps the word and puts nothing out. |
| InviteClientTransaction.Transaction.Start | ngnstack/tinySIP/src/transactions/tsip_transac_ict.c:333-351 | Started once, the object is in `Calling`, has sent one request, has timer B due exactly its interval later, and keeps its word from then on. A second start changes nothing. |
| InviteClientRuns.TransitionFollows | ngnstack/tinySIP/src/transactions/tsip_transac_ict.c:362-719 | The outputs of every transition lead, by a protocol stated on outputs alone, from the phase of the old state to that of the new one. |
| InviteClientRuns.ActKeepsPhase | ngnstack/tinySIP/src/transactions/tsip_transac_ict.c:235-298 | Every action keeps the log in order and in step with the state. |
| InviteClientRuns.ActKeepsArmed | ngnstack/tinySIP/src/transactions/tsip_transac_ict.c:362-719 | Every action leaves a timer due that ends the new state; timer B keeps the deadline it got at the start. |
| InviteClientRuns.RetransmissionKeepsPaced | ngnstack/tinySIP/src/transactions/tsip_transac_ict.c:388-417 | Timer A sends one more request and doubles the interval until the next. |
| InviteClientRuns.OtherActionsKeepPaced | ngnstack/tinySIP/src/transactions/tsip_transac_ict.c:421-719 | No other action sends a request. |
| InviteClientRuns.StepKeepsGood | ngnstack/tinySIP/src/transactions/tsip_transac_ict.c:154-225 | Every event, late callbacks included, keeps the whole invariant. |
| InviteClientRuns.RunKeepsGood | ngnstack/tinySIP/src/transactions/tsip_transac_ict.c:154-719 | So does every run. |
| InviteClientRuns.StartIsGood | ngnstack/tinySIP/src/transactions/tsip_transac_ict.c:333-384 | Starting establishes it: one request sent, timer A at its interval, timer B due at the start plus its own. |
| InviteClientTheorems.AfterIsGood | ngnstack/tinySIP/src/transactions/tsip_transac_ict.c:154-719 | The invariant holds after every run of a started transaction, with the deadlines fixed at the start. |
| InviteClientTheorems.RequestsTakeTime | ngnstack/tinySIP/src/transactions/tsip_transac_ict.c:362-417 | In every run, the time since the start covers the doubling intervals of the requests sent; at most seven in 64 times the first interval; exactly one over a reliable transport. |
| InviteClientTheorems.LogsAreWellBehaved | ngnstack/tinySIP/src/transactions/tsip_transac_ict.c:362-828 | In every run: requests first, an ACK directly before a failure is passed up, at most one failure, never an ACK and a success, and nothing but its repetition after a removal. |
| InviteClientTheorems.LegalIsWellBehaved | ngnstack/tinySIP/src/transactions/tsip_transac_ict.c:362-828 | The protocol on outputs implies those guarantees, which quantify over positions in the log. |
| InviteClientTheorems.OutcomeIsTold | ngnstack/tinySIP/src/transactions/tsip_transac_ict.c:154-225 | After every run, the input that removes the transaction leaves its user without the outcome if and only if it is one of three kinds. |
| InviteClientTheorems.FailedAckIsSilent | ngnstack/tinySIP/src/transactions/tsip_transac_ict.c:440-481 | For every failure: if its ACK cannot be sent, the log is the request, the ACK and the removal. |
| InviteClientTermination.StaysDue | ngnstack/tinySIP/src/transactions/tsip_transac_ict.c:362-719 | In every continuation of every run, the timer of a state stays armed, at the deadline that it got on entry, as long as the state lasts. |
| InviteClientTermination.TimersEnd | ngnstack/tinySIP/src/transactions/tsip_transac_ict.c:421-687 | In every continuation of every run, `Calling`, `Completed` and `Accepted` are over at any moment when the manager has caught up and the deadline has passed. |
| InviteClientTermination.CallbackEnds | ngnstack/tinySIP/src/transactions/tsip_transac_ict.c:421-687 | In every continuation of every run, the callback of the state's timer ends the transaction, however late it runs. |
| InviteClientTermination.RetransmissionIsDue | ngnstack/tinySIP/src/transactions/tsip_transac_ict.c:388-417 | After every run that waits over an unreliable transport, timer A is armed and due within its current interval, which has doubled once for every retransmission. |
| InviteClientTermination.ManagerRunsAreBounded | ngnstack/tinySAK/src/tsk_timer.c:272-345 | Every run of the manager's threads, in whatever order, is at most as long as the work that there was. |
| InviteClientTermination.ManagerCatchesUp | ngnstack/tinySAK/src/tsk_timer.c:272-345 | After every run, the runs of the threads are bounded if and only if timer A is not in use with an interval of zero. |
| InviteClientTermination.EveryManagerRunEnds | ngnstack/tinySIP/src/transactions/tsip_transac_ict.c:421-687 | After every run, once the deadline has passed, the transaction has ended whenever the threads wait again, with no help from the network. |
| InviteClientTermination.ProceedingWaits | ngnstack/tinySIP/src/transactions/tsip_transac_ict.c:485-509 | In `Proceeding` no sequence of timer events changes anything. |
| InviteClientDelivery.ResponseIsDelivered | ngnstack/tinySIP/src/transactions/tsip_transac_ict.c:362-687 | For every response in every state: what is acknowledged, what is passed up, in which order, whether the transaction ends, and which state it is in. |
| InviteClientDelivery.UserHearsWhatArrives | ngnstack/tinySIP/src/transactions/tsip_transac_ict.c:440-687 | In every run the responses passed up are, in order, those that arrived in the states in which they are to be, and so are the ACKs. |
| InviteClientDelivery.ResponseReturns | ngnstack/tinySIP/src/transactions/tsip_transac_ict.c:154-183 | What handing a response over returns, in every state: the failure of the ACK, else that of the user where it counts, -2 after the removal, else 0. |
| InviteClientDelivery.UserActsAfterDelivery | ngnstack/tinySIP/src/transactions/tsip_transac_ict.c:440-687 | What the user does from within the callback for a response happens after its delivery, in the new state, and before its return value counts. |
| InviteClientDelivery.ErrorIsReported | ngnstack/tinySIP/src/transactions/tsip_transac_ict.c:691-719 | A transport error is reported as one, any other error as one, and a cancellation not at all; all end the transaction. |
| InviteClientDelivery.TimerIsServed | ngnstack/tinySIP/src/transactions/tsip_transac_ict.c:204-225 | In every state, timer A sends the request, B reports a timeout, D and M end it silently, and no timer does anything outside its state. |
| InviteClientDelivery.EventIsAnnounced | ngnstack/tinySIP/src/transactions/tsip_transac_ict.c:154-225 | All events other than responses put out exactly that. |
| InviteClientDelivery.TimeoutTakesTime | ngnstack/tinySIP/src/transactions/tsip_transac_ict.c:362-436 | In no run is a timeout reported before the interval of timer B has passed since the start. |
| InviteClientDelivery.EntersOnTime | ngnstack/tinySIP/src/transactions/tsip_transac_ict.c:440-538 | On entry to `Completed` or `Accepted`, timer D or M is due exactly its interval later. |
| InviteClientDelivery.TimersEndNoEarlier | ngnstack/tinySIP/src/transactions/tsip_transac_ict.c:646-687 | In no run does a timer end `Completed` or `Accepted` before the interval of D or M has passed since entry. |
| InviteClientTheorems.ErrorsEndOnceStarted | ngnstack/tinySIP/src/transactions/tsip_transac_ict.c:242-298 | Errors and cancellation end a transaction if and only if it has left `Started`. |
| InviteClientTheorems.SuccessRearmsTimers | ngnstack/tinySIP/src/transactions/tsip_transac_ict.c:485-538 | After a response ends `Calling`, timer B, and timer A over an unreliable transport, is pending if and only if it is a 2xx. |
| InviteClientReentrancy.PerformWithoutInner | ngnstack/tinySAK/src/tsk_fsm.c:120-195 | With callbacks that do not call back, a nested call is the step of a run. |
| InviteClientReentrancy.NestsAreRuns | ngnstack/tinySAK/src/tsk_fsm.c:120-195 | Every nest of calls leads where some run leads, with the same outputs but for repeated removals, and that run does nothing but what the calls do and cancellations. |
| InviteClientReentrancy.NestsKeepWord | ngnstack/tinySIP/src/transactions/tsip_transac_ict.c:362-828 | Every nest of calls keeps the word of the transaction: well-behaved outputs, requests at doubling intervals, the timers due. |
| InviteClientReentrancy.RunsRemoveOnce | ngnstack/tinySAK/src/tsk_fsm.c:170-190 | In every run without such calls, a transaction that has ended asked for its removal once and last, and no other has. |
| InviteClientReentrancy.RemovalIsRepeated | ngnstack/tinySAK/src/tsk_fsm.c:170-190 | After every nest of calls, a call asks for the removal more than once if and only if the transaction ends inside a callback of it, before the outer row function has returned. |
| InviteClientReentrancy.RejectionRemovesTwice | ngnstack/tinySIP/src/dialogs/tsip_dialog_invite.c:1483-1504 | For every rejection whose ACK is sent: request, ACK, response, and two removals, when the dialog cancels from within the callback. |
| InviteServer.DispatchIsTransition | ngnstack/tinySIP/src/transactions/tsip_transac_ist.c:236-305 | For every state, action and message, conditions included, the first row of the ordered list that applies is the transition of the diagram. |
| InviteServerTransaction.Transaction.constructor | ngnstack/tinySIP/src/transactions/tsip_transac_ist.c:307-321 | The list is built from the table, timer I is zero over reliable transports, and the object is valid. |
| InviteServerTransaction.Transaction.Lookup | ngnstack/tinySAK/src/tsk_fsm.c:141-158 | Scanning the list, conditions included, gives the transition of the diagram. |
| InviteServerTransaction.Transaction.Act | ngnstack/tinySAK/src/tsk_fsm.c:120-195 | One action on the object, through its list and around the calls that its user makes meanwhile, is one nested action of the machine on values. |
| InviteServerTransaction.Transaction.Receive | ngnstack/tinySIP/src/transactions/tsip_transac_ist.c:162-172 | A retransmitted request is answered with the last response and an ACK in `Accepted` is passed up, whatever the user does meanwhile; without that, exactly that. What it returns is given by the state and the results; anything but 0 has ended the transaction. The word is kept. |
| InviteServerTransaction.Transaction.Respond | ngnstack/tinySIP/src/transactions/tsip_transac_ist.c:174-189 | A response to the request in `Proceeding`, or a 2xx in `Accepted`, is appended as sent and is the last response from then on; any other changes nothing. What it returns is given. |
| InviteServerTransaction.Transaction.Fail | ngnstack/tinySIP/src/transactions/tsip_transac_ist.c:196-207 | An error or a cancellation appends exactly its report and the removal, if the transaction has been started, and otherwise changes nothing. |
| InviteServerTransaction.Transaction.Callback | ngnstack/tinySAK/src/tsk_timer.c:272-278 | A callback puts out what its timer stands for, keeps the word, is over for good, and ends the transaction if it is that of the state's timer. |
| InviteServerTransaction.Transaction.Elapse | ngnstack/tinySAK/src/tsk_timer.c:306-345 | What the manager does meanwhile keeps the word and puts nothing out. |
| InviteServerTransaction.Transaction.Start | ngnstack/tinySIP/src/transactions/tsip_transac_ist.c:328-339 | Started once, the object has answered the request with 100 and, if that went out, given it to its user; a second start changes nothing. |
| InviteServerRuns.RunKeepsGood | ngnstack/tinySIP/src/transactions/tsip_transac_ist.c:157-689 | Every run keeps the server's invariant: consistent timers, the timer that ends the state due within its interval, the next retransmission due. |
| InviteServerTheorems.LogsAreWellBehaved | ngnstack/tinySIP/src/transactions/tsip_transac_ist.c:351-704 | In every run: 100 first, the user asked at most once and right after it, no provisional after a final response, one outcome, ACKs passed up only after a 2xx, and nothing but its repetition after a removal. |
| InviteServerTheorems.LegalIsWellBehaved | ngnstack/tinySIP/src/transactions/tsip_transac_ist.c:351-704 | A protocol on outputs implies those guarantees, which quantify over positions in the log. |
| InviteServerTheorems.ActKeepsPhase | ngnstack/tinySIP/src/transactions/tsip_transac_ist.c:351-689 | Every action keeps the log in that protocol, and the last response of the kind that the state is for. |
| InviteServerTheorems.ErrorsEndOnceStarted | ngnstack/tinySIP/src/transactions/tsip_transac_ist.c:243-305 | Errors and cancellation end a transaction if and only if it has left `Started`. |
| InviteServerTheorems.FailureIsReported | ngnstack/tinySIP/src/transactions/tsip_transac_ist.c:157-234 | After every run, the input that removes the transaction reports a failure to its user if and only if it is an error or the callback of timer H while the ACK is awaited. |
| InviteServerTheorems.FailedResendIsSilent | ngnstack/tinySIP/src/transactions/tsip_transac_ist.c:509-529 | Whenever the ACK is awaited, a retransmission that fails adds the response and the removal, and nothing else. |
| InviteServerTermination.RetransmissionIsDue | ngnstack/tinySIP/src/transactions/tsip_transac_ist.c:509-529 | After every run that waits for the ACK over an unreliable transport, timer G is armed and due within its current interval, which stays below T2 or the initial one. |
| InviteServerTermination.StaysDue | ngnstack/tinySIP/src/transactions/tsip_transac_ist.c:420-573 | In every continuation of every run, the timer of a state stays armed, at the deadline that it got on entry, as long as the state lasts. |
| InviteServerTermination.TimersEnd | ngnstack/tinySIP/src/transactions/tsip_transac_ist.c:533-657 | In every continuation of every run, `Completed`, `Confirmed` and `Accepted` are over at any moment when the manager has caught up and the deadline has passed. |
| InviteServerTermination.CallbackEnds | ngnstack/tinySIP/src/transactions/tsip_transac_ist.c:533-657 | In every continuation of every run, the callback of the state's timer ends the transaction, however late it runs. |
| InviteServerTermination.ManagerRunsAreBounded | ngnstack/tinySAK/src/tsk_timer.c:272-345 | Every run of the manager's threads, in whatever order, is at most as long as the work that there was. |
| InviteServerTermination.ManagerCatchesUp | ngnstack/tinySAK/src/tsk_timer.c:272-345 | After every run, the runs of the threads are bounded if and only if timer G is not in use with an interval of zero. |
| InviteServerTermination.EveryManagerRunEnds | ngnstack/tinySIP/src/transactions/tsip_transac_ist.c:533-657 | After every run, once the deadline has passed, the transaction has ended whenever the threads wait again, with no help from the network. |
| InviteServerTermination.ProceedingWaits | ngnstack/tinySIP/src/transactions/tsip_transac_ist.c:383-485 | Until the user answers, no sequence of timer events changes anything. |
| InviteServerDelivery.ResponseIsForwarded | ngnstack/tinySIP/src/transactions/tsip_transac_ist.c:403-485 | For every response of the user in every state: exactly if it is to be sent it is appended as that very response, and is the last one from then on. |
| InviteServerDelivery.RequestIsAnswered | ngnstack/tinySIP/src/transactions/tsip_transac_ist.c:351-597 | The first request is answered with 100 and given to the user; a retransmission is answered with the last response. |
| InviteServerDelivery.RequestIsReturned | ngnstack/tinySIP/src/transactions/tsip_transac_ist.c:157-172 | What handing a request or an ACK over returns, in every state; anything but 0 for a request makes the stack open another transaction. |
| InviteServerDelivery.ResponseIsReturned | ngnstack/tinySIP/src/transactions/tsip_transac_ist.c:174-189 | What the user gets back for a response: the result of sending exactly if it is sent, -1 for a code out of range, -2 after the removal, else 0. |
| InviteServerDelivery.AckIsAbsorbed | ngnstack/tinySIP/src/transactions/tsip_transac_ist.c:549-628 | The ACK of a failure is absorbed, that of a 2xx passed up, any other ignored. |
| InviteServerDelivery.ErrorIsReported | ngnstack/tinySIP/src/transactions/tsip_transac_ist.c:661-689 | What each kind of error and a cancellation tell the user, and that all end a started transaction. |
| InviteServerDelivery.TimerIsServed | ngnstack/tinySIP/src/transactions/tsip_transac_ist.c:214-234 | In every state, timer H reports the failure, G sends the last response, I and L end it silently, and no timer does anything outside its state. |
| InviteServerDelivery.EventIsTaken | ngnstack/tinySIP/src/transactions/tsip_transac_ist.c:157-234 | Every event in every state: what is put out, whether the transaction ends, its state, and its last response. |
| InviteServerDelivery.NetworkHearsTheUser | ngnstack/tinySIP/src/transactions/tsip_transac_ist.c:351-597 | In every run the responses sent are, in order, the 100, those of the user, and the latest of these for every retransmitted request and every callback of timer G. |
| InviteServerDelivery.UserActsInside | ngnstack/tinySIP/src/transactions/tsip_transac_ist.c:351-628 | What the user does when it is given the request or an ACK happens then, and before its return value counts. |
| InviteServerDelivery.EntersOnTime | ngnstack/tinySIP/src/transactions/tsip_transac_ist.c:420-573 | On entry to its state timer H, I or L is due exactly its interval later; timer G is set with H over unreliable transports, and cancelled with I. |
| InviteServerDelivery.TimersEndNoEarlier | ngnstack/tinySIP/src/transactions/tsip_transac_ist.c:533-657 | In no run does timer H, I or L end its state before its interval has passed since entry. |
| InviteServerDelivery.RetransmissionsBackOff | ngnstack/tinySIP/src/transactions/tsip_transac_ist.c:509-529 | In every run the interval of timer G is the first one, doubled for every retransmission up to 4000 milliseconds. |
| InviteServerReentrancy.PerformWithoutInner | ngnstack/tinySAK/src/tsk_fsm.c:120-195 | With callbacks that do not call back, a nested call is the step of a run. |
| InviteServerReentrancy.NestsAreRuns | ngnstack/tinySAK/src/tsk_fsm.c:120-195 | Every nest of calls, responses from within callbacks included, leads where some run leads, with the same outputs but for repeated removals. |
| InviteServerReentrancy.NestsKeepWord | ngnstack/tinySIP/src/transactions/tsip_transac_ist.c:351-704 | Every nest of calls keeps the word of the transaction: well-behaved outputs, the timers due. |
| InviteServerReentrancy.RunsRemoveOnce | ngnstack/tinySAK/src/tsk_fsm.c:170-190 | In every run without such calls, a transaction that has ended asked for its removal once and last, and no other has. |
| InviteServerReentrancy.RemovalIsRepeated | ngnstack/tinySAK/src/tsk_fsm.c:170-190 | After every nest of calls, a call asks for the removal more than once if and only if the transaction ends inside a callback of it, before the outer row function has returned. |
| InviteServerReentrancy.RefusalRemovesTwice | ngnstack/tinySIP/src/dialogs/tsip_dialog_invite.server.c:222-224 | For every request refused from within its own callback: 100, the request, the refusal, and two removals. |
| InviteAgreement.SentByState | ngnstack/tinySIP/src/transactions/tsip_transac_ist.c:351-689 | What a server has sent, by its state. |
| InviteAgreement.SentIsCompatible | ngnstack/tinySIP/src/transactions/tsip_transac_ist.c:420-485 | It has not sent two different outcomes. |
| InviteAgreement.StepHears | ngnstack/tinySIP/src/transactions/tsip_transac_ict.c:362-719 | A client acts on a response only when it receives it. |
| InviteAgreement.EventsAreTaken | ngnstack/tinySIP/src/transports/tsip_transport_layer.c:55-69 | What every joint event comes to: only its own side moves, and the server side reacts as it does alone; a request that it does not take leaves it among the removed, and a new one answers. |
| InviteAgreement.AnythingSentMayArrive | ngnstack/tinySIP/src/transactions/tsip_transac_layer.c:226-248 | Anything sent, and nothing else, may arrive at any time; the users, the timers and the errors are free. |
| InviteAgreement.AckIsForLast | ngnstack/tinySIP/src/transactions/tsip_transac_layer.c:226-248 | An ACK that reaches the one server in `Completed`, matched by call and sequence number only, is for the response it sent. |
| InviteAgreement.DeliverIsSane | ngnstack/tinySIP/src/transports/tsip_transport_layer.c:55-69 | A request keeps the joint invariant, whether a transaction takes it, fails on it, or a new one is opened for it. |
| InviteAgreement.StepIsSane | ngnstack/tinySIP/src/transactions/tsip_transac_layer.c:270-290 | Every event that the network makes possible keeps the joint invariant. |
| InviteAgreement.RunIsSane | ngnstack/tinySIP/src/transactions/tsip_transac_layer.c:270-290 | So does every joint run. |
| InviteAgreement.UsersAgree | ngnstack/tinySIP/src/transactions/tsip_transac_ict.c:440-687 | In every joint run, a final response passed to the client's user was sent by a server; as long as no second server transaction has been opened, all final responses sent are equal to it or like it a 2xx. |
| InviteAgreement.ConfirmationIsGenuine | ngnstack/tinySIP/src/transactions/tsip_transac_ist.c:549-573 | In every such run, a server in `Confirmed` has been acknowledged for the very failure that it sent. |
| InviteAgreement.StatesAgree | ngnstack/tinySIP/src/transactions/tsip_transac_ict.c:629-687 | In every such run, a client in `Accepted` or `Completed` has a server that took the same branch. |
| InviteAgreement.UndisturbedExchange | ngnstack/tinySIP/src/transactions/tsip_transac_ist.c:351-573 | From every initial system, any final response can reach the client's user in three steps, and a failure is confirmed by one more. |
| InviteReopening.AgreementCanBeLost | ngnstack/tinySIP/src/transports/tsip_transport_layer.c:63-66 | After every joint run, some continuation makes the users disagree if and only if the client waits for an outcome or its user has been told one. |
| InviteReopening.ServerCanBeMistaken | ngnstack/tinySIP/src/transactions/tsip_transac_layer.c:226-248 | After every joint run, some continuation confirms a response that was never acknowledged if and only if the client waits for an outcome or an ACK is under way. |

## Left out

- ContactUri.Uri.Parse: headers on which the C++ code has no defined behaviour are excluded by precondition (`Outcome`
  has `Undefined` for them): user or host over 50 characters, a port text over 19, a number outside `int`, the first
  '@' before offset 5, no ':', ';' or '>' to end the host, or an end that lies before its start.
- MobileNumber.IsMobileNumber: what `\d` matches is a parameter, and the matching engine is taken to compute the
  semantics of `Regex`.
- Pinyin.AllPinyinsByUnicode: the contents of the tables are parameters with a validity condition, and `malloc` does
  not fail.
- Fsm.PushDescending: linked nodes are modelled as a sequence; the object's locks and threads are not modelled.
- Timers.NeverEarly: any overdue timer may expire first and any queued callback run first, which includes the order of
  the list and of the queue; scheduling while the manager is not running is not modelled. Intervals do not wrap at 64
  bits; timer A's stays within the time passed since the start plus the first interval.
- InviteClientTransaction.Transaction.Receive: what `send_ACK` and the dialog return are inputs, as are the calls that
  the dialog makes from within a callback; the building of messages, reference counting, and the cancelling of timers
  by the destructor are not modelled. Retransmission of the request ignores the transport's result, as in the code.
- InviteServerTransaction.Transaction.Receive: T2 is the default constant; what sending returns, and the calls from
  within callbacks, are inputs.
- InviteClientReentrancy.NestsAreRuns, InviteServerReentrancy.NestsAreRuns: an action of another thread between the
  release of the lock after a failed row function and the setting of the final state is not modelled.
- InviteAgreement.UsersAgree: one client and the server transactions of its request, of which one at a time is alive,
  in steps whose callbacks return without calling back (each side's nests come to such steps); forking proxies and
  other transactions of the same call are not modelled, nor what a dialog does with a request that it has seen before,
  other than opening a server transaction.
- The non-INVITE transactions, dialogs, transports, message parsing, and the rest of the SIP stack.
- `IsPureNumber`, which rests on a foundation class, `getMarketName`, and the case macros of `pinyin.h`.
- Sessions, contacts, history, storage, recharging, HTTP, XMPP and the user interface: declarations without bodies in
  the files modelled here, or foreign calls.
