# State-reuse plugin: a verified model

The system is a streaming proxy plugin written in Go that attaches a stored "state ticket" to
requests, and a set of Python scripts that collect such tickets through rotating routes, hand them
to the plugin, classify accounts by whether they have one, and show what happened.  This project
models that behaviour in Dafny and proves properties of it.  `dafny verify dfyconfig.toml` checks
all of it.

## What is modelled

**The plugin as interleaved steps** (`Plugin.dfy`).  Every `Forward` and `ApplyConfig` call is a
thread with a program counter; a step is the work between two points at which another thread can be
seen.  The state holds the entries (ticket, cooldown, block), the store file and its temporary
file, the slots and backoffs per account, the three harvest permits, the plugin lock, the entry
locks and a clock that never runs backwards.  What the network, the disk and the clock answer is
the input of a step, so every failure the code handles is a possible input.  A crash may happen
between any two steps and may leave a torn temporary file.  On top of it:

- `Resources.dfy`, `Isolation.dfy`, `Durability.dfy`: the invariant, in three parts, and that every
  step keeps it.
- `Safety.dfy`: what follows for every run over any store: an injected ticket is the request's own,
  a stale answer revokes only the ticket it was for.
- `Runs.dfy`: what follows for runs over a tidy store, one with a record per key and none of them
  issued more than 30 s ahead: what is published is on disk, concurrent writers lose nothing, a crash
  at any step is recovered from.
- `History.dfy`: the disk holds under a key what was last written there.
- `Revocation.dfy`: a denial is carried out, and exactly when a revocation survives a crash;
  `Traces.dfy`: runs written out step by step in which a failing write brings a ticket back.
- `Discipline.dfy`: one more request at most after a 429; requests and harvests in flight, the
  spacing of harvests, and how long a block lasts.
- `RequestHeaders.dfy`, `Gates.dfy`: what a call passes before it harvests or goes upstream, and what
  becomes of the state header a client sends, in whatever spelling.
- `Reasons.dfy`, `Decisions.dfy`: every outcome of a call goes back to a reason that it found, and
  entries, backoffs and the configuration change in these ways and no others.
- `Progress.dfy`: no reachable deadlock; every schedule of steps ends, and one that cannot be
  continued has finished every call.
- `Sequential.dfy`: `persist`, `ApplyConfig` and `ticket` as methods on an object, with their
  loops, and that these loops are those of the machine.
- `Stream.dfy`: the frames of one `Forward` call, with the response buffer that is reused as a real
  array.
- `Harvest.dfy`: the two loops over the event stream of a harvest, Go's and Python's, with one
  meaning for both.

**The ticket format** (`Base64.dfy`, `Alphabet.dfy`, `Tickets.dfy`, `TicketTexts.dfy`): base64 from
RFC 4648 (alphabet of section 5, padding bits of section 3.5) in the dialects of the two languages,
what it means without an encoder, the binary layout, the validity window, the key, and how the three
implementations of it agree.

**The collector** (`Rotation.dfy`, `Collector.dfy`, `CollectorRuns.dfy`, `Jobs.dfy`,
`Reconcile.dfy`): the choice of routes, one turn for an account, runs of turns, the choice of
accounts, and the reconciliation of groups, protected accounts and routing.

**Two smaller pieces**: the canonical form and the checks of the plugin contract
(`Sorting.dfy`, `Contract.dfy`, `Normalize.dfy`, `Headers.dfy`), and the monitor's windowed tail
(`Monitor.dfy`).

Go code that is a step of the concurrent protocol is a function from state to state, because that is
what the statements about interleavings quantify over.  Loops and objects of the sources are methods
and classes, each proved against a declarative contract or against a function whose meaning is then
proved.

Clocks are integers in nanoseconds, text is a sequence of characters, and Go's zero time is the
constant `ZERO_TIME`. White space is a matter of code points; a length that the source takes in
bytes is a number of characters here, which is the same for ASCII. A digest is any text of 64
characters; nothing is assumed about collisions. `State.loaded` and `State.dirty` exist to state
properties: the store has been read since the process started, and a store operation whose failure
the code ignores (the write of a revocation, the read in `ApplyConfig`) has failed since then.

## What the code does that its texts do not say

- `plugin/pkg/pluginapi/docs/development.md:34` asks `ApplyConfig` to keep the old configuration when
  it fails.  With a malformed store the code keeps the new one and reports the error
  (`plugin/main.go:178-183`); the model follows the code.
- The error of a revocation's write is dropped (`plugin/main.go:643`), so a revoked ticket can come
  back after a crash: `Revocation.RevocationSurvivesIffWritten` says exactly when, for every later
  crash and whatever was written in between.  A candidate file of the same ticket that was left
  behind brings it back too.
- A harvested ticket that cannot be stored is dropped with an error, but no pause is set
  (`plugin/main.go:390-392`): `Discipline.UnstoredHarvestSetsNoPause`, and
  `Discipline.PausesExactly` for all ends of a harvest.
- The backoff after a 429, the cooldown and the block of an entry are kept in memory, so a crash lifts
  them: what is said about them holds between crashes.
- Header names are copied as the client spells them (`plugin/main.go:520-522`), but the state header is
  set and deleted, and the credentials are read, under the canonical spelling alone
  (`plugin/main.go:584`, `plugin/main.go:590`, `plugin/main.go:204-206`).  A state header in small
  letters goes upstream: `Gates.NoForeignState` has the condition,
  `Traces.ForeignStateGoesUpstream` a run.
- Go's strict decoder skips CR and LF.  The check for blanks in front of it (`plugin/main.go:209`)
  still never decides, because of the two lengths: `Tickets.BlankCheckNeverDecides`.
- After a revocation the issue time of the entry is 0, so any valid candidate is imported, an older
  one too, and lifts the block: `Revocation.RevokedEntryTakesAnyCandidate`.
- Rotation is fair only without a generator or with at most two routes: `Rotation.FairExactly`; with
  one, a new account never gets to a third route: `Rotation.GeneratorStarves`.
- The plugin looks for `429` in the text of a harvest error, and that text holds the length of the
  state header, so a state of 429 characters counts as a rate limit (`plugin/main.go:382`,
  `plugin/main.go:473`).
- Python's decoder takes `+`, `/`, stray padding bits and, behind whole groups, any number of surplus
  `=` (`Base64.SurplusIsTaken`), so it is Go's only on canonical texts:
  `Base64.StrictIsCanonicalLenient`.  The lengths of tickets leave no room for surplus padding:
  `Tickets.ShapeHasNoSurplus`.  The model follows Python 3.11; for 3.10, the oldest release the
  repository asks for (`README.md:42`), tickets are read alike: `Tickets.ReleasesReadSameTickets`.
- A line of the event log that is JSON but not an object makes the monitor's request fail
  (`monitor/server.py:53-62`).

## Model

| member | source | states |
|---|---|---|
| Alphabet.DigitIsSextet | plugin/main.go:212 | the value of a character is its place in the table of RFC 4648, for all characters; Python also reads `+` and `/` as 62 and 63 |
| Alphabet.QuantaMeans | plugin/main.go:212 | both decoders accept exactly whole groups of characters in the table with the padding they need, for Go with zero bits left over, and give the bytes that are the same number in base 256 as the characters in base 64 |
| Alphabet.DecodeMeans | collector/ticket_store.py:11 | so of the characters that count the bytes are determined, without an encoder |
| Base64.EncodeThenDecode | plugin/main.go:212 | strict decoding undoes encoding, for all bytes |
| Base64.DecodeThenEncode | plugin/main.go:212 | what strict decoding accepts is, its line breaks apart, the encoding of what it returns |
| Base64.SameBytes | plugin/main.go:212 | two accepted texts carry the same bytes exactly when they differ only in line breaks |
| Base64.StrictIsCanonicalLenient | collector/ticket_store.py:11 | for all texts: Go's decoder is Python's on the text without its line breaks, restricted to canonical ones: clean alphabet, zero padding bits, no surplus padding |
| Base64.DialectsDiffer | collector/ticket_store.py:11 | on a text without line breaks the two decoders differ if and only if Python takes it and it is not canonical |
| Base64.SurplusIsTaken | collector/ticket_store.py:11 | every encoding of whole groups with any number of `=` behind it: Python gives the bytes, Go refuses it |
| Base64.ReleasesAgree | collector/ticket_store.py:11 | on texts of whole groups without surplus padding Python 3.10 decodes like 3.11 |
| Base64.DecodedLength | plugin/main.go:213 | for both decoders the number of characters that count (Go skips line breaks, Python surplus padding) fixes the number of bytes up to padding |
| Tickets.ParseStateExact | plugin/main.go:208-218 | `parseState` accepts exactly the encodings of 0x80, an 8-byte issue time in range and 208 or 240 bytes, and returns that time |
| TicketTexts.ParseStateMeans | plugin/main.go:208-218 | the same from the characters alone: 332 characters or 290 and two `=`, in the URL-safe alphabet, zero bits left over, whose first twelve digits are the number 128 * 2^64 + t with 1577836800 <= t < 4102444800 |
| TicketTexts.ValidTicketMeans | plugin/main.go:219-222 | a valid ticket is exactly one with such a text, issued at most 30 s ahead and less than 3570 s ago, with an account, a model and a 64-character hash |
| TicketTexts.CollectorValidMeans | collector/state-cron.py:106-119 | the scheduler's verdict from the characters alone, in Python's dialect, with the hash of the account |
| TicketTexts.CandidateMeans | collector/ticket_store.py:9-27 | which ticket `candidate` makes of which texts at which two readings of the clock |
| TicketTexts.WordOf | plugin/main.go:215 | eight bytes as the explicit sum of their powers of 256 |
| Tickets.BlankCheckNeverDecides | plugin/main.go:209 | the check for blanks never changes the verdict |
| Tickets.ShapeHasNoBlank | plugin/main.go:213 | because no text of one of the two length pairs has room for a skipped line break |
| Tickets.ShapeHasNoSurplus | collector/ticket_store.py:11-15 | nor for surplus padding: Python reads every character of such a text |
| Tickets.ReleasesReadSameTickets | collector/ticket_store.py:11-15 | for texts and bytes of these lengths the release of Python makes no difference |
| Tickets.DecoderSkipsBreaks | plugin/main.go:212 | any encoding followed by a line break still decodes for Go, and not for Python |
| Tickets.AcceptedTextsAreInjective | plugin/main.go:208-218 | two accepted texts with the same bytes are the same text |
| Tickets.KeyInjective | plugin/main.go:207 | a key determines account, model and hash among hashes of one length |
| Tickets.DigitsMean | plugin/main.go:207 | the account in a key is its decimal number, without a leading zero |
| Tickets.KeyCollision | plugin/main.go:207 | two different records with hashes of different lengths share a key |
| Tickets.VerdictsAgree | collector/state-cron.py:106-119 | for an account with any hash, scheduler and plugin give one verdict on clean texts (no `+` or `/`, zero padding bits) in the agreement window: the ticket is valid and filed under this hash |
| Tickets.VerdictsDiffer | collector/state-cron.py:106-119 | on any text and for any hash: the scheduler takes a ticket only for its own hash, and they differ if and only if it takes it and the text is not clean |
| Tickets.VerdictsAgreeOnlyInWindow | plugin/main.go:217-222 | that window is exact: they agree on all tickets with clean texts and all hashes if and only if the clock is in it |
| Tickets.CandidateStaysImportable | collector/ticket_store.py:9-27 | an accepted candidate is valid for the plugin until 3570 s after its issue, if and only if its text is canonical |
| Resources.ResourcesPreserved | plugin/main.go:304-318 | every step keeps slots, permits, entry locks and the plugin lock in step with the threads that hold them, in the order slot, entry, permit, lock |
| Isolation.IsolationPreserved | plugin/main.go:320-400 | every step keeps entries filed under their own key and the data of every call its own |
| Isolation.SameTicket | plugin/main.go:640 | text and issue time identify the cached ticket, as both are filed under one key |
| Safety.SafeAlong | plugin/main.go:161-650 | resources and data are in order in every state of every run over any store |
| Durability.RunKeepsDurability | plugin/main.go:243-271 | every step of a call keeps cache and disk in agreement |
| Runs.InvariantAlong | plugin/main.go:161-650 | the whole invariant holds in every state of every run over a tidy store, crashes included |
| Runs.CachedIsStored | plugin/main.go:390-393 | whenever an entry's lock is free its still-valid ticket is on disk, alone under its key |
| Runs.PublishedIsStored | plugin/main.go:390-393 | persist before publish: a ticket about to be cached is on disk while it is valid |
| Runs.StoredIsCached | plugin/main.go:182-193 | after a load without ignored failures a valid record on disk is the cached one |
| Runs.StoreLosesOnlyOwn | plugin/main.go:256-271 | a valid record leaves the disk only by the rename of a call for its own key; a revocation removes only the denied ticket |
| Runs.CrashRecovery | plugin/main.go:182-193 | a crash at any step and a load give every key its published or renamed ticket back if it is still valid, and no other |
| Runs.StoreSurvivesStartup | plugin/main.go:536-538 | between a crash and the first load nothing is written and no entry is locked |
| Safety.InjectedIsOwn | plugin/main.go:554-588 | an injected ticket has the account, model and credentials of its request and was valid during the call |
| Safety.CachedIsFiled | plugin/main.go:341-345 | a cached ticket is well formed, filed under its own key and issued at most 30 s ahead |
| Safety.RevocationHasCause | plugin/main.go:634-650 | behind every revocation stands a 401 or 403 for a request that carried that very ticket; a 429 never leads to one |
| Runs.LostRecordHasCause | plugin/main.go:634-650 | in every run a valid record leaves the disk only by its own key's call, by a revocation only if a request that carried it had been answered 401 or 403 |
| Safety.LostEntryHasCause | plugin/main.go:639-645 | the same for cached tickets: replaced by their own key's publication, removed only after a denial of that very ticket |
| Decisions.EntriesFollow | plugin/main.go:337-400 | in every run, what becomes of every entry in every step: by published imports, harvests and revocations, by harvests without a ticket, by denied or limited answers, by loading, by a crash, and in no other way |
| Decisions.BlockHasCause | plugin/main.go:380-381 | an entry becomes blocked if and only if a revocation of its key is published or a harvest of it is denied |
| Reasons.EveryFactHasReason | plugin/main.go:480-672 | in every run, whatever holds of a call (it has ended, goes upstream with this ticket or without one, imports, decides, waits, stores, could not store) goes back to a step of its own that found the reason for it |
| Decisions.TicketHasReason | plugin/main.go:355-399 | in every run, a ticket given out was cached and valid at the clock the call had read, unblocked, and less than 3000 s old or in a cooldown; or valid when another model or a refused harvest looked; or was just harvested and stored |
| Decisions.NoTicketHasReason | plugin/main.go:320-400 | in every run, the only reasons for going upstream without a ticket on a state path: suspension, nothing cached, not valid, blocked, cooling down without a valid ticket, cancelled, no client, denied, refused without a valid old ticket, not stored |
| Decisions.DecideExactly | plugin/main.go:352-363 | for all entries and instants: when the cached ticket is given out, when a harvest is waited for, and nothing otherwise |
| Decisions.CachedIsGiven | plugin/main.go:564-573 | a call of another model gives out the cached ticket if and only if it is valid |
| Decisions.ImportHasReason | plugin/main.go:338-341 | in every run, an import is of the candidate the call read, for its key, valid at the clock it had read, and newer than what was cached |
| Decisions.NotStored | plugin/main.go:244-271 | in every run, storing fails only because the store was malformed or a file operation of that attempt failed |
| Decisions.AnythingCanHappen | plugin/main.go:304-400 | every wait can be cancelled, every file operation and request can fail, every candidate, answer and response can come |
| Decisions.AnyTime | plugin/main.go:480-495 | in every state time can pass, requests and configurations can come and the process can crash |
| Decisions.FlagsMean | plugin/main.go:180 | `loaded` and `dirty`, which other rows assume, mean in every run: the store has been read, and a failure has been ignored, since the process started |
| History.LastWriteDecides | plugin/main.go:256-271 | over any stretch of a run, crashes included, a ticket that has not expired is on disk exactly if it was the last written under its key, or was there and nothing was written |
| History.RecoveryIsHistory | plugin/main.go:182-193 | after any crash and the next load a key holds a valid ticket if and only if it was the last one written under it, or was there before and nothing was written |
| Revocation.DenialIsCarriedOut | plugin/main.go:634-650 | before a call whose ticket was answered 401 or 403 ends, it publishes the revocation or finds another ticket in the entry |
| Decisions.AnswerCools | plugin/main.go:634-650 | before a call whose ticket was answered 401, 403 or 429 ends, it puts a cooldown of five minutes on the entry or finds another ticket there |
| Revocation.WrittenIsGone | plugin/main.go:643 | a revocation that was written leaves no record of its key on disk, whatever failed before |
| Revocation.RevocationSurvivesIffWritten | plugin/main.go:643 | after any later crash and the next load the revoked ticket is back if and only if its write had failed and nothing was written under its key since, or it was itself the last ticket written there |
| Traces.DeniedTicketIsBack | plugin/main.go:643 | for any fresh ticket of the harvested model, a run in which it goes upstream, is answered 401, the write of its revocation fails, and after a crash and a load it is cached again |
| Revocation.RevokedEntryTakesAnyCandidate | plugin/main.go:341-347 | a revoked entry imports every valid candidate of its key, the revoked ticket too, and the import lifts the block |
| Discipline.BackoffBound | plugin/main.go:539-553 | after a recorded 429 at most one more request of the account goes upstream before the backoff ends, in every interleaving without a crash; the backoff is in memory only |
| Discipline.BackoffAsked | plugin/main.go:610-619 | a 429 asks for five minutes or for what it says, whichever ends later |
| Discipline.BackoffStored | plugin/main.go:620-624 | recording never shortens a backoff of any account |
| Decisions.BackoffsFollow | plugin/main.go:620-624 | in every run, a backoff changes only by a recorded 429 of its account, to the later of the two instants, and by a crash |
| Decisions.BackoffDecides | plugin/main.go:544-563 | in every run, a call is refused if and only if the backoff that stood when it read it is still ahead; otherwise it goes on by its path and model |
| Decisions.EndHasReason | plugin/main.go:530-672 | in every run, the only reasons for which a call ends: out of scope, cancelled, backoff, no model, its request failed, its response is over |
| Discipline.HarvestsInFlight | plugin/main.go:364-369 | at most one harvest per key and three in all are in flight |
| Discipline.CooldownAndBlock | plugin/main.go:341-347 | between crashes a cooldown moves earlier only by an import or a harvest, a block is lifted only by an import |
| Discipline.BlockedGivesNothing | plugin/main.go:352-354 | as long as an entry is blocked it yields no ticket, and no call waits for or is in a harvest of it |
| Discipline.HarvestsAreSpaced | plugin/main.go:371-388 | without a crash, after a harvest that brought no ticket the next on its key starts 60 s later, 300 s if denied or limited, unless an import came between |
| Discipline.PausesExactly | plugin/main.go:371-394 | the end of a harvest leaves a pause if and only if the answer was no ticket |
| Discipline.UnstoredHarvestSetsNoPause | plugin/main.go:390-392 | a ticket that cannot be stored leaves the entry as it was, so the next decision asks for a harvest at once |
| Discipline.RequestsInFlight | plugin/main.go:304-318 | at most two requests per account are upstream, counted from sending to the end of the streamed response, a revocation in between included |
| Decisions.WaitsOnlyWhenTaken | plugin/main.go:304-318 | in every run, a call waits for a slot only while two calls of its account hold one, for a permit only while three do, for an entry only while another call holds it |
| Discipline.HarvestIsDue | plugin/main.go:352-369 | in every run a harvest is waited for only without a block, after the cooldown, and without a fresh ticket |
| Discipline.ImportsAreNewer | plugin/main.go:341-345 | an import replaces only by a ticket issued later |
| Discipline.DenialsAreSpaced | plugin/main.go:640-641 | without a crash, after a 401, 403 or 429 for the ticket still held the next harvest of its key starts five minutes later, unless an import came between |
| Discipline.BlockLasts | plugin/main.go:642-646 | without a crash, from a published revocation or a denied harvest on the entry stays blocked until an import of its key |
| Gates.ScopeWasChecked | plugin/main.go:530-538 | a call that gets to a slot, a ticket or upstream had its account in scope when that was checked |
| Gates.SuspensionWasChecked | plugin/main.go:323-333 | a call that imports or harvests had an account that was not suspended when that was checked |
| Decisions.ConfigInForce | plugin/main.go:178 | in every run, scope and suspension are those of the last `ApplyConfig` that took the lock since the start, or empty |
| Gates.OnlyHarvestedModel | plugin/main.go:554-563 | only requests for the harvested model on a state path import or harvest |
| Gates.NoForeignState | plugin/main.go:583-592 | for all headers: on the two state paths the values sent under the state header's name, in whatever spelling, are exactly the own ticket, or none, if and only if the client wrote the name in no other spelling; elsewhere the headers are untouched |
| Traces.ForeignStateGoesUpstream | plugin/main.go:520-522 | a run in which a client's `x-codex-turn-state` goes upstream on a state path beside the ticket |
| Gates.TicketIsForCredentials | plugin/main.go:204-206 | in every run whose requests come with the digest of their own credentials, for any digest, an injected ticket has the digest of the credentials that are read from the headers sent |
| RequestHeaders.SetExactly | plugin/main.go:584 | after `Set` the value is all that is sent under a name if and only if no other spelling of it was there |
| RequestHeaders.DelExactly | plugin/main.go:590 | after `Del` nothing is sent under a name if and only if no other spelling of it was there |
| RequestHeaders.HarvestIsOwn | plugin/main.go:404-406 | a harvest is made with the credentials the digest was taken of, whatever the client sent |
| RequestHeaders.IdentityMeans | plugin/main.go:204-206 | the digest is taken of the first values of the two headers in canonical spelling, the token without its scheme |
| RequestHeaders.CredentialsAreRead | plugin/main.go:204-206 | the credential that is read is all that is sent under its name if and only if it had one spelling and one value |
| Progress.NoDeadlock | plugin/main.go:304-400 | in every reachable state with an unfinished call some call can step without being cancelled |
| Progress.StepsDescend | plugin/main.go:480-672 | every step of every call, whatever the world answers, leaves less work |
| Progress.EveryCallCanFinish | plugin/main.go:480-672 | from every reachable state all calls can be run to their end |
| Progress.EveryScheduleFinishes | plugin/main.go:480-672 | a schedule of steps from a reachable state that cannot be continued without a cancellation has brought every call to its end |
| Progress.EveryScheduleEnds | plugin/main.go:480-672 | no schedule of steps goes on for ever, whatever the world answers |
| Sequential.Cache.Persist | plugin/main.go:244-271 | the store becomes the surviving records and the new one, or stays as it was |
| Sequential.Cache.ApplyConfig | plugin/main.go:175-195 | the configuration changes in any case, the entries are those loaded from the store |
| Sequential.Cache.ImportCandidate | plugin/main.go:338-351 | an importable candidate is on disk before it is cached and unblocks the entry; any other changes nothing |
| Sequential.Cache.HarvestNow | plugin/main.go:370-399 | what each answer does to cooldown, block, ticket and disk |
| Sequential.Cache.Decide | plugin/main.go:352-400 | the part behind the import, case by case: an unblocked valid ticket that is less than 3000 s old or in a cooldown is given out; blocked, cooling and cancelled calls get none; all others harvest |
| Sequential.Cache.Ticket | plugin/main.go:320-400 | when a ticket is given out and what becomes of the entry, with the same cases; what is given out is cached, own and valid; nothing is published that is not on disk |
| Sequential.SurvivorsMean | plugin/main.go:256-261 | `persist` keeps exactly the valid records of other keys |
| Sequential.SurvivorsKeepOneEach | plugin/main.go:256-261 | it keeps one record per key, and none of its own key |
| Sequential.LoadedMeans | plugin/main.go:186-193 | loading leaves present entries alone and gives every other key its first valid record |
| Sequential.MachineFilters | plugin/main.go:256-261 | the machine's filter steps are this loop, with the clock moving between records |
| Sequential.MachineLoads | plugin/main.go:186-193 | the machine's load steps are this loop |
| Sequential.MachineHarvests | plugin/main.go:373-389 | a harvest that brings no ticket ends in the machine with the entry and the answer of `HarvestNow`, and no other |
| Harvest.ScanEvents | plugin/main.go:423-467 | Go's flags after the loop, from the events alone: completed, failed anywhere, model of the last completed event, limits, denials, size |
| Harvest.EventMeans | plugin/main.go:447-460 | what an event counts as: completion, the three kinds of failure, the words of limits and denials in its three codes |
| Harvest.HarvestOutcome | plugin/main.go:401-476 | when a reply yields a ticket, that it is the request's own and valid, and exactly when it is denied or limited |
| Harvest.ProbeEvents | collector/local_ip_harvest.py:131-196 | Python's report, from status and events alone |
| Harvest.StopMeans | collector/local_ip_harvest.py:175-188 | which failure events stop the collector |
| Harvest.LastModelMeans | collector/local_ip_harvest.py:171-173 | the model kept is that of the completed event behind which no other stands |
| Harvest.LoopsAgree | collector/local_ip_harvest.py:163-195 | both loops accept the same streams; a stream that stops the collector is denied or limited for the plugin |
| Stream.LegalIsPrefix | plugin/pkg/pluginapi/docs/development.md:36-38 | the phases allow exactly the beginnings of Start Chunk* End, Start Chunk* Error and Error |
| Stream.Gather | plugin/main.go:497-515 | the body is the joined chunks however they are cut; it is refused exactly when it exceeds the limit |
| Stream.Forwarded | plugin/main.go:651-661 | a read of the reused buffer becomes a chunk of its own, and earlier chunks keep their bytes |
| Stream.RelayBody | plugin/main.go:651-671 | the chunks join to a beginning of what the reader delivers, to all of it when the loop ends |
| Stream.Relay | plugin/main.go:648-671 | start, chunks, end or error; the end reports the bytes that came before it |
| Stream.CheckLate | plugin/main.go:516-600 | the first check behind the body that fails decides the refusal |
| Stream.Call | plugin/main.go:601-672 | one upstream call with this body; its failure or its response is passed on |
| Stream.Forward | plugin/main.go:480-672 | upstream goes exactly what passes every check, once, with the joined body; everything else gets the refusal of the first check that fails; frames are legal and truthful |
| Rotation.MergeRoutes | collector/local_ip_harvest.py:274-281 | generators first, then the two other sources interleaved |
| Rotation.InterleavedAt | collector/local_ip_harvest.py:274-280 | where every route of either source ends up |
| Rotation.OneRoute | collector/local_ip_harvest.py:284-298 | one route comes out, with more than one in the list never the last one used |
| Rotation.ChoiceExactly | collector/local_ip_harvest.py:284-298 | which route is tried: the preferred one, else the first generator, unless it was the last one used; else the first behind the cursor that was not |
| Rotation.MissedExactly | collector/local_ip_harvest.py:328-333 | what an attempt leaves of cursor, last route and preference |
| Rotation.Fairness | collector/local_ip_harvest.py:284-298 | without a generator, from any state, n + 1 attempts that bring nothing visit all n routes |
| Rotation.FairExactly | collector/local_ip_harvest.py:292-294 | this holds from every state if and only if there is no generator or there are at most two routes |
| Rotation.GeneratorStarves | collector/local_ip_harvest.py:292-294 | with a generator among more than two routes some route is never tried by a new account |
| Rotation.GeneratorAlternates | collector/local_ip_harvest.py:292-297 | of two consecutive attempts without a preferred route exactly one uses the first generator |
| Collector.Collector.Probe | collector/local_ip_harvest.py:330-370 | the body of the loop changes the schedule and the handed-over files as `OnRoute` says |
| Collector.Collector.Collect | collector/local_ip_harvest.py:305-371 | a whole call changes only its own schedule, as `Turn` says, and hands over only the ticket it reports |
| CollectorRuns.StopsPause | collector/local_ip_harvest.py:133-160 | every stop asks for at least five minutes |
| CollectorRuns.NextAttemptNeverDecreases | collector/local_ip_harvest.py:314-347 | over any calls the next attempt never moves earlier |
| CollectorRuns.CallsAreSpaced | collector/local_ip_harvest.py:314-326 | calls that reach the routes are an interval apart, and after a stop at least the cooldown of the probe that stopped, five minutes or more |
| CollectorRuns.AuthBlockAbsorbs | collector/local_ip_harvest.py:314-322 | once the credentials are blocked nothing is sent and nothing changes |
| CollectorRuns.BlockHasCause | collector/local_ip_harvest.py:343-348 | credentials are blocked exactly by a stop that says so |
| CollectorRuns.TurnMovesOn | collector/local_ip_harvest.py:314-347 | a call that gets through pauses the account exactly for the interval behind its start, or for the cooldown of the probe that stopped it behind the end of that probe |
| CollectorRuns.TurnExactly | collector/local_ip_harvest.py:314-370 | when a call pauses, has no time, gets no route, probes once or twice, and what it leaves of schedule and rotation, for all schedules and answers |
| CollectorRuns.QueuedIsVerified | collector/local_ip_harvest.py:349-370 | a ticket is handed over if and only if capture and verification on one route both complete with the required model and neither stops; only then the route becomes the preferred one |
| CollectorRuns.IncomingIsVerified | collector/local_ip_harvest.py:365-370 | over any calls, every new candidate file comes from one call that captured and verified it |
| CollectorRuns.VisitedAreAttempts | collector/local_ip_harvest.py:327-334 | pauses, deadlines and stops do not disturb the rotation |
| CollectorRuns.RunsAreFair | collector/local_ip_harvest.py:327-334 | calls that made n + 1 attempts and captured nothing have tried every route |
| Reconcile.ClassifiedMembers | collector/state-cron.py:148 | an account ends in exactly one of the two groups, the ready one exactly with a ticket, other memberships as before |
| Reconcile.ClassifiedIsSettled | collector/state-cron.py:148-149 | a classified account is left alone |
| Reconcile.AfterClassifies | collector/state-cron.py:138-155 | a pass classifies each of its accounts and touches no other |
| Reconcile.ServesMeans | collector/state-cron.py:139-143 | a ticket serves an account exactly if it is the account's, for the harvested model and the present credentials, with a text that carries its issue time, and in time |
| Reconcile.ReadyExactly | collector/state-cron.py:138-155 | after a pass an account is in the ready group if and only if some ticket serves it, and in the fallback group otherwise |
| Reconcile.OldCredentialsFallBack | collector/state-cron.py:117 | an account whose tickets are all of other credentials ends in the fallback group |
| Reconcile.SecondPassIsIdle | collector/state-cron.py:138-155 | a second pass that finds the same tickets changes and writes nothing |
| Reconcile.Host.FindGroups | collector/state-cron.py:130-137 | the two groups are found exactly when both names are there once |
| Reconcile.Host.LookForTicket | collector/state-cron.py:139-144 | ready exactly when some ticket of the account is valid when it is read |
| Reconcile.Host.SyncGroups | collector/state-cron.py:129-161 | memberships and writes after the accounts dealt with, also when a write fails |
| Reconcile.ProtectedMembers | collector/state-cron.py:210 | protected are the members and whoever was protected before |
| Reconcile.SuspendedMembers | collector/state-cron.py:211-214 | members are suspended exactly when not eligible, others as before |
| Reconcile.NextConfigIsFixed | collector/state-cron.py:210-216 | a second cycle asks for the same configuration |
| Reconcile.ProtectionGrows | collector/state-cron.py:209-217 | over any cycles, whatever fails in them, the protected accounts are those of the start and every account that was a member when a configuration was accepted |
| Reconcile.Host.Protect | collector/state-cron.py:182-253 | nothing is written without a group, a member and the enabled plugin; success means configuration and routing are fixed points; at a fixed point nothing is written |
| Jobs.Newest | collector/state-cron.py:264-271 | a usable ticket with the latest issue time, if there is one |
| Jobs.Classify | collector/state-cron.py:272-282 | the status, from the existence of tickets alone |
| Jobs.UsableMeans | collector/state-cron.py:264-270 | which tickets count for the status, in whole seconds |
| Jobs.DueExactly | collector/state-cron.py:291-293 | due is a missing ticket 20 s, and one to be renewed 300 s behind the last attempt |
| Jobs.Scheduler.SelectJobs | collector/state-cron.py:257-295 | statuses, jobs and recorded attempts of a cycle |
| Jobs.JobsAreDue | collector/state-cron.py:291-295 | an account gets a job exactly when it is due, and then this cycle is its last attempt |
| Jobs.JobsAreSpaced | collector/state-cron.py:291-295 | two jobs of an account are the later one's interval apart, whatever the clock does |
| CollectorRuns.RetryInterval | collector/local_ip_harvest.py:301-302 | 20 seconds exactly for a missing ticket, 300 for every other status |
| Sorting.SortSlice | plugin/pkg/pluginapi/v2/contract.go:351-355 | in place, a sorted rearrangement; ties in any order |
| Sorting.OneSortedForm | plugin/pkg/pluginapi/v2/contract.go:351-355 | a list without ties has one sorted rearrangement |
| Contract.CheckPermissions | plugin/pkg/pluginapi/v2/contract.go:100-109 | the loop over the permissions seen accepts exactly distinct ones that are not blank, and otherwise the first that is blank or was there before decides the error |
| Contract.LegalIdMeans | plugin/pkg/pluginapi/v2/contract.go:58 | an identifier is legal exactly if it is two or more words with single separators, `.v` and a number without a leading zero |
| Contract.Validate | plugin/pkg/pluginapi/v2/contract.go:77-111 | accepts exactly the valid capabilities; the first check that fails decides the error |
| Contract.ValidateInfo | plugin/pkg/pluginapi/v2/contract.go:125-149 | accepts exactly valid capabilities with distinct identifiers |
| Contract.AdjacentIsEnough | plugin/pkg/pluginapi/v2/contract.go:356-360 | comparing neighbours after sorting finds every repetition |
| Contract.NormalizedSaysSame | plugin/pkg/pluginapi/v2/contract.go:344-362 | the normal form holds the same capabilities with the same permissions |
| Contract.NormalFormAscends | plugin/pkg/pluginapi/v2/contract.go:351-355 | identifiers ascend, and so do the permissions of each capability |
| Sorting.TextLeMeans | plugin/pkg/pluginapi/v2/contract.go:351-355 | in the order in which the first different character decides |
| Contract.NormalFormIsCanonical | plugin/pkg/pluginapi/v2/contract.go:344-362 | two lists have one normal form if and only if they differ only in the order of capabilities and permissions |
| Contract.NormalizeIsIdempotent | plugin/pkg/pluginapi/v2/contract.go:344-362 | normalising twice changes nothing |
| Normalize.CloneEach | plugin/pkg/pluginapi/v2/contract.go:345-354 | the loop accepts exactly valid capabilities and gives each a sorted list of permissions of its own |
| Normalize.ViewsRearrange | plugin/pkg/pluginapi/v2/contract.go:355 | rearranging capabilities in memory rearranges what they say, whatever lists they share |
| Normalize.NormalizeCapabilities | plugin/pkg/pluginapi/v2/contract.go:344-362 | accepts exactly what `PluginInfo.Validate` accepts of a list and returns its normal form in memory of its own; the caller's list and its lists of permissions, shared or not, keep their contents |
| Headers.TotalWithout | plugin/pkg/pluginapi/v2/contract.go:194-217 | the size of a header does not depend on the order in which its fields are walked |
| Headers.CheckName | plugin/pkg/pluginapi/v2/contract.go:364-375 | accepts exactly names of lower-case letters, digits and hyphens |
| Headers.CheckHeaders | plugin/pkg/pluginapi/v2/contract.go:191-219 | the verdict on a header, whatever the order |
| Monitor.WindowLinesAreLines | monitor/server.py:42-47 | the lines behind a window's first line are the last lines of the whole text |
| Monitor.TailIsSuffix | monitor/server.py:38-51 | the lines kept are the file's last lines, and its last 500 exactly when it fits the window or the window holds more than 500 lines |
| Monitor.TailEvents | monitor/server.py:38-63 | the rows are those of the lines kept that are objects; one that is not an object fails the request |
| Monitor.RowsArePublic | monitor/server.py:56-62 | no other field and no compound value gets out |

## Left out

- Incoming candidate files: what `ticket` reads is an arbitrary input, and removing the file is not
  modelled.  Reading and removing are not atomic with the collector's replacement, so nothing is
  said about candidates being lost.
- JSON, SHA-256, URLs, proxies, HTTP and gRPC clients, Docker, SQL and the administration API: their
  results are inputs.  Events that are JSON of another shape than the loops expect are not modelled.
- Power loss that reorders a rename behind later writes: a crash stops the process, tears at most
  the temporary file, and a rename is atomic.
- Logging, counters and `Health`; the plugin lock that `audit` takes is kept as a step of its own.
- File owners and modes, and failures of the collector's own hand-over write.
- The clock never runs backwards within a run of the plugin and within one call of the collector.
- `Stream` and `Plugin` describe the same calls at two levels: frames in one, shared state in the
  other; they are not composed into one machine.
- The remaining fields of `RequestContext`, `RequestPatch` and `PreprocessResponse`: checks of
  single fields without a loop.
- What the collector's two requests send: that the second one carries the captured text.
- Lengths in bytes of header values and bodies that are not ASCII.
- Header names with characters outside RFC 9110 make Go's client refuse the request; the model lets
  them through.
- A list of permissions is a whole array; slices that overlap in part are not modelled.
- Accounts of one batch are collected one after another; in the program up to three run at once, on
  schedules of different accounts.
- Threads that wait under a stalled network, and fairness of the Go scheduler.
- Generated code, `adapter.go`, `host.go`, `runtime.go`, `transport.go`, the example plugins, the web
  page and the deployment files.
