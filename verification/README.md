# Crabtalk, modelled and proved

Crabtalk is a runtime for agents: a log-structured store, sessions over it, a text index, the loop
that runs an agent, MCP peers, and a terminal client. This project models the parts whose state
means something no single function says, and proves what holds of them over every input, run or
interleaving.

Where the source changes state step by step the model does: classes with the source's fields, and
methods with its loops. Each method is proved against a function of its inputs or of the old state,
and the theorems are about those functions. `dafny verify dfyconfig.toml` checks everything.

| part | files | what is modelled |
|---|---|---|
| crabdb | `Bytes`, `Order`, `Format`, `DbState`, `DbMeaning`, `DbRecovery`, `DbRuns`, `CrabDb` | one file as bytes, the disk as a map from paths to bytes; header, records, index snapshots inside the log, replay, compaction, crashes |
| agent loop | `History`, `AgentLoop`, `AgentTheorems`, `AgentRecords` | `run_stream`, with the model stream, the order tools finish in, and the cancel point as inputs |
| live sessions | `LiveSession`, `ReloadTransparency`, `SessionBackend`, `Registry` | live history against stored messages through turns, compaction, rewind, eviction and reload; the registry's two indexes and byte bound |
| session stores | `StoredSessions`, `Decimal`, `KvSessions`, `FileNames`, `FileSessions` | both backends as the list they are meant to be, the key-value one with its message index |
| text search | `Keyspace`, `Tokens`, `TextIndex`, `TextSearch`, `Ranking`, `Ranker` | the inverted index, search over it, and the index-free ranker it has to agree with |
| MCP | `McpState`, `McpInterleavings`, `McpAgreement`, `McpOperations`, `McpHandler` | each lock-held section as one step, all their interleavings, and whole operations as runs of them |
| merge patch | `MergePatch` | `merge` against section 2 of RFC 7386 |
| transcript | `Transcript`, `TurnDisplay` | the transcript's state machine, and what a run of the agent loop forwards to it |

## Where the code and its documentation part

Each of these is a lemma about an input or a run the code can meet, next to the condition under
which the code does what is promised.

- crabdb: after a torn append the fragment stays in the file, and a shorter record written over it
  leaves bytes that a later open can read as a record (`DbRecovery.ResidueResurrects`); over whole
  runs with any crashes the exact condition is `DbRuns.RunRebuildsIff`. A crash between a
  snapshot's bytes and the header makes most stores unopenable
  (`DbRecovery.SnapshotCrashReopensIff`). A store whose own path has the extension of the temporary
  empties itself on compaction (`CrabDb.CrabDb.Compact`). The file is said never to exceed twice
  its live size: a compaction of small values already does (`DbRuns.SnapshotOutweighsIff`) and
  checkpoints have no bound (`DbRuns.CheckpointsGrow`); when it holds is `DbRuns.TwiceLiveIff`, and
  the bound that always holds is `DbRuns.SizeBound`. Opening counts `dead` otherwise than live
  operation does (`DbRuns.ReplayChargesTheNewer`, `DbRuns.RunReopensIff`).
- Sessions: a rewind that lands on the archive entry panics where it is documented never to rewind
  past a compacted prefix (`ReloadTransparency.RewindSyncedIff`). Tool results count as turns, so a
  rewind can orphan a call (`ReloadTransparency.RewindOrphansCall`). A guest's turn, a rewind and a
  turn lose the user's message from storage (`ReloadTransparency.GuestRewindLosesMessage`).
- File backend: a file name never produced is said to decode to itself; `%41` decodes to `A`
  (`FileNames.NeverProducedYetDecoded`). A torn line is dropped as documented, but the next append
  continues it (`FileSessions.AppendAfterTearIff`), and a line that lacks only its newline is read
  until then and lost after (`FileSessions.TornNewlineLoses`).
- Text: documents without a token count for the ranker and not for the index, so the two agree only
  without them (`Ranker.ScoresAgreeIff`).
- MCP: a reconnect overlapping a connect ends connected without a process, a failure after a reap
  is never reaped, and a connect that waited at the gate of an entry since replaced starts a second
  process (`McpInterleavings.ReconnectOverlapsConnect`, `FailureAfterReap`, `TwoProcessesOneId`).
  Without such overlaps status and process agree (`McpAgreement.UndisturbedRunsAgree`).
- Merge: RFC 7386 strips nulls from an object patched onto nothing; `merge` stores them
  (`MergePatch.NullSurvives`).
- Transcript: each round of tools is announced twice and ended once, so from the second round on a
  turn leaves a tool in flight and everything behind it unseen (`TurnDisplay.TurnSettlesIff`,
  `Transcript.TwoToolRoundsStayInFlight`). A table and an open code block stay behind at the end of
  a turn (`Transcript.FinishHoldsIff`, `Transcript.TableStaysHeld`), and thinking inside a block
  takes its place (`Transcript.ConservedIff`, `Transcript.ThinkingForgetsCode`).

## Model

| member | source | states |
|---|---|---|
| DbRuns.ReopenIsIdentity | lib/crabdb/src/db.rs:80-165 | After any run of put, delete, checkpoint, compact and reopen that begins with opening an absent or short file, opening the bytes rebuilds exactly the resident index and append position, with the replayed charges as `dead`, and every indexed offset holds a whole Put record that says what a plain ordered map would say. |
| DbRuns.RunRebuildsIff | lib/crabdb/src/db.rs:80-165 | Over any run, with any number of writes torn by crashes: every opening of the file rebuilds the state the store was in if and only if, each time, what lay past the append position read as no record yet. |
| DbRuns.RunReopensIff | lib/crabdb/src/db.rs:80-165 | What the file of such a run, from the opening of an absent or short file on, opens to: the resident index and append position, the plain map, and exactly the `dead` of a ledger kept beside the run. |
| DbRuns.StepReopensIff | lib/crabdb/src/db.rs:80-165 | For each command, a torn write included, whether the file it leaves opens to the state again, as a condition on the bytes then past the append position. |
| DbRuns.StepKeeps | lib/crabdb/src/db.rs:177-240 | One command, a crash and a reopen included, moves the meaning exactly as the plain map moves, leaves the file clean up to the append position, and leaves exactly the named bytes past it. |
| DbRuns.RunKeeps | lib/crabdb/src/db.rs:177-240 | The same over every run, from any state whose file is clean up to the append position, whatever lies past it. |
| DbRuns.DeadBytesAccounting | lib/crabdb/src/db.rs:265-296 | For live operations `dead` is exactly the bytes of superseded or deleted Puts, dead plus live bytes fit in the file, and after every put or effective delete the dead share is under the threshold or nothing is dead. |
| DbRuns.StepBalances | lib/crabdb/src/db.rs:265-296 | One step keeps that ledger, compaction included. |
| DbRuns.ReplayChargesTheNewer | lib/crabdb/src/db.rs:128-152 | Replay charges a superseding record's own length where live operation charged the superseded one: over any clean file an overwrite shifts the two figures by those lengths. |
| DbRuns.TwiceLiveIff | lib/crabdb/src/db.rs:32-43 | Over every run of live operations the file is at most twice its live records if and only if the dead Put bytes, the Delete records and the snapshots do not outweigh them. |
| DbRuns.SizeBound | lib/crabdb/src/db.rs:32-43 | After every put or effective delete: with the live records, the Delete records and the snapshots as what is kept, the file is that, or less than that over one minus the threshold; less than twice it at one half. |
| DbRuns.PutsStayWithinTwiceLive | lib/crabdb/src/db.rs:32-43 | Without snapshots and with no live key deleted, after every put the file is at most twice its live records. |
| DbRuns.SnapshotOutweighsIff | lib/crabdb/src/db.rs:298-373 | A compaction of a one-key store leaves more than twice the live record if and only if the value is shorter than seven bytes. |
| DbRuns.CheckpointsGrow | lib/crabdb/src/db.rs:298-328 | n checkpoints of any store add n snapshots and remove nothing. |
| DbRecovery.TornAppendRecovers | lib/crabdb/src/db.rs:128-165 | An append torn at any byte over a file with nothing past its end opens to the state before it, same index, same map. |
| DbRecovery.CrashRecoversIff | lib/crabdb/src/db.rs:128-165 | A write torn anywhere, over whatever an earlier crash left: the state before it is reopened if and only if the bytes then past the append position read as no record yet. |
| DbRecovery.AppendReopens | lib/crabdb/src/db.rs:128-165 | With the whole record down the file opens to the state after it. |
| DbRecovery.ResidueReopensIff | lib/crabdb/src/db.rs:128-165 | With leftover bytes past the append position, the file still opens to the same state if and only if those bytes do not start with a whole record or an unknown op. |
| DbRecovery.PutOverResidueIff | lib/crabdb/src/db.rs:265-273 | A put over leftover bytes leaves a file that reopens if and only if it covers them or what it leaves of them reads as no record yet. |
| DbRecovery.ResidueResurrects | lib/crabdb/src/db.rs:265-273 | For every key and value there is a crash after which one reopen, one short put of another key and a second reopen bind a key that was never put. |
| DbRecovery.SnapshotClean | lib/crabdb/src/db.rs:298-328 | After a snapshot the file opens to the very state it was taken of, without replaying anything. |
| DbRecovery.SnapshotCrashReopensIff | lib/crabdb/src/db.rs:298-328 | A crash after any number of snapshot bytes and before the header names them: the file reopens if and only if those bytes read as no record yet; from two entries modulo 256 up it fails with the count as an unknown op. |
| DbRecovery.CompactClean | lib/crabdb/src/db.rs:330-373 | Compaction leaves a clean file whatever the old one ended with. |
| DbMeaning.CompactMeans | lib/crabdb/src/db.rs:330-373 | Compaction keeps the map, resets `dead`, and writes exactly the header, one Put per live key in key order, and the snapshot of that. |
| DbMeaning.PutRecordMeans | lib/crabdb/src/db.rs:177-186 | A put record binds the key in the map and charges the superseded record's length, or nothing. |
| DbMeaning.DeleteRecordMeans | lib/crabdb/src/db.rs:188-198 | A delete record unbinds the key and charges its Put's length. |
| DbMeaning.SnapshotMeans | lib/crabdb/src/db.rs:298-328 | A snapshot changes no binding, though it rewrites the header and grows the file. |
| DbMeaning.AfterPutMeans | lib/crabdb/src/db.rs:177-186 | Put, with the compaction it may trigger, is the map update. |
| DbMeaning.AfterDeleteMeans | lib/crabdb/src/db.rs:188-198 | Delete, with the compaction it may trigger, is the map removal, a no-op for a key that is not there. |
| CrabDb.CompactionCrashesRecover | lib/crabdb/src/db.rs:330-373 | Whatever the temporary holds, a write cut off inside a record included, the old file or the renamed one opens to the same map. |
| CrabDb.CrashDisksRecover | lib/crabdb/src/db.rs:330-373 | Every disk a compaction passes through up to its snapshot opens to the same map. |
| CrabDb.OpenBytes | lib/crabdb/src/db.rs:80-165 | Header check, snapshot load or empty start, replay of the tail, errors included; a file too short for a header, the absent one included, is the 32 bytes of a new store and binds nothing. |
| CrabDb.CrabDb.OpenWith | lib/crabdb/src/db.rs:80-110 | An absent or short file is created: the disk then has exactly the 32 default bytes at the path and no other path changed, the header names no snapshot, and the store is empty and usable; any other file opens to what it holds, or fails with what its bytes are refused for. |
| DbRecovery.ShortFileIsNew | lib/crabdb/src/db.rs:92-103 | Every file shorter than a header opens to the empty store over a default header, never to an error. |
| DbRecovery.UnusableSnapshotReplays | lib/crabdb/src/db.rs:105-127 | A snapshot that cannot be read, out of bounds or undecodable, costs a replay and nothing else: the file opens as it would under a header that names none. |
| CrabDb.ReplayTail | lib/crabdb/src/db.rs:128-152 | The replay loop is replay of the tail as a function, including the unknown-op error and the clean stop at a torn record. |
| CrabDb.LoadEntries | lib/crabdb/src/db.rs:105-127 | The index a snapshot gives. |
| CrabDb.Range | lib/crabdb/src/db.rs:243-249 | Seek and take-while yields exactly the keys of the column under the prefix, ascending. |
| CrabDb.RangeIsUnder | lib/crabdb/src/db.rs:243-249 | Between the first key at or above a prefix and the first that lacks it lie all the keys that have it. |
| CrabDb.CrabDb.Get | lib/crabdb/src/db.rs:167-175 | Reads back what the map binds, through the offset, with no error. |
| CrabDb.CrabDb.ScanKeys | lib/crabdb/src/db.rs:200-204 | The names under a prefix, ascending. |
| CrabDb.CrabDb.Scan | lib/crabdb/src/db.rs:206-217 | Names and values under a prefix, ascending. |
| CrabDb.CrabDb.Put | lib/crabdb/src/db.rs:177-186 | The whole new state, the map update, no file but the store's own and its temporary touched. |
| CrabDb.CrabDb.Delete | lib/crabdb/src/db.rs:188-198 | The whole new state, the map removal, and whether the key was there. |
| CrabDb.CrabDb.MaybeCompact | lib/crabdb/src/db.rs:289-296 | Compacts exactly when the dead bytes make up the configured share of what follows the header, and changes nothing otherwise. |
| CrabDb.CrabDb.Checkpoint | lib/crabdb/src/db.rs:230-234 | Appends a snapshot and points the header at it. |
| CrabDb.CrabDb.Snapshot | lib/crabdb/src/db.rs:298-328 | The same, over the file bytes. |
| CrabDb.CrabDb.Compact | lib/crabdb/src/db.rs:330-373 | The rewritten file; the disk after each write and the rename, one by one: the header and the log of the first keys in the temporary, then the log of all in place; and the emptied file when the temporary is the store's own path. |
| CrabDb.CopyLive | lib/crabdb/src/db.rs:330-356 | The copy loop: one Put per live key in key order into the temporary, the disk after each of its writes, the store's file untouched. |
| Format.HeaderRoundTrip | lib/crabdb/src/format.rs:49-82 | A header decodes to itself in front of any bytes. |
| Format.HeaderRefusedIff | lib/crabdb/src/format.rs:59-82 | Exactly which headers are refused, by their first twelve bytes, and with which of the three errors; any other is read, its reserved bytes ignored. |
| Format.RecordRoundTripIff | lib/crabdb/src/format.rs:85-137 | A record decodes to itself in front of any bytes if and only if its key and value lengths fit 32 bits. |
| Format.TornRecord | lib/crabdb/src/format.rs:109-137 | Every strict prefix of a record reads as not there yet, never as an error. |
| Format.DecodeExtends | lib/crabdb/src/format.rs:109-137 | Bytes after a record, or after an unknown op, do not change the verdict. |
| Format.IndexRoundTrip | lib/crabdb/src/format.rs:139-166 | A snapshot decodes to the entries it was taken from, whatever follows it. |
| Format.EncodeIndex | lib/crabdb/src/format.rs:139-151 | The encoding loop is the index bytes as a function. |
| Format.DecodeIndexLoop | lib/crabdb/src/format.rs:153-166 | The decoding loop, its cursor and its early return, is the decoder as a function. |
| Order.ListUnique | lib/crabdb/src/db.rs:200-217 | A finite key set has one ascending listing, so a scan's answer is determined by the keys. |
| Order.InOrder | lib/crabdb/src/db.rs:200-217 | Iteration in key order yields that listing. |
| Order.PrefixConvex | lib/crabdb/src/db.rs:243-249 | Every key between a prefix and a key that has it has it too. |
| AgentTheorems.RunKeepsPairing | crates/runtime/src/agent/mod.rs:325-647 | For every model stream, completion order, cancel point and error: a run only appends to the history, exactly its committed steps plus the partial text of a cancelled stream, and keeps every call followed at once by one result per call in call order. |
| AgentTheorems.UncommittedAddsNoCall | crates/runtime/src/agent/mod.rs:420-502 | When a round commits no step, in all its cases, and that it then ends the run without adding a call or a result. |
| AgentTheorems.DrainedFillsEverySlot | crates/runtime/src/agent/mod.rs:506-597 | A dispatch that drains fills every buffer slot, each from exactly one completion. |
| AgentTheorems.FilledReordered | crates/runtime/src/agent/mod.rs:506-597 | The slots do not depend on the finishing order. |
| AgentTheorems.OrderIndependence | crates/runtime/src/agent/mod.rs:506-597 | Whatever order the tools of each round finish in, a run commits the same history and the same steps and is over alike. |
| AgentTheorems.RunSpeaksProtocol | crates/runtime/src/agent/mod.rs:325-647 | Every drained run follows the event protocol (bracketed, never nested segments; at most one result per call after the calls start, exactly one before they complete), ends with its only Done, and that Done reports as many iterations as steps, never more than the limit. |
| AgentTheorems.OverMeansOneDone | crates/runtime/src/agent/mod.rs:325-647 | A protocol walk that ends over has exactly one Done, and it is last. |
| AgentTheorems.StepsBounded | crates/runtime/src/agent/mod.rs:332-336 | Steps never exceed the iteration limit. |
| AgentTheorems.TextIsConserved | crates/runtime/src/agent/mod.rs:345-420 | The text deltas said are, in order, exactly the text streamed. |
| AgentTheorems.ThinkingIsConserved | crates/runtime/src/agent/mod.rs:345-420 | The thinking deltas said are, in order, exactly the thinking streamed. |
| AgentRecords.RunRecordsRounds | crates/runtime/src/agent/mod.rs:325-647 | Over every run the committed steps are those of the first rounds, one for one: each stands in the history as its assistant text and calls, and behind it, for every completion of its round, an entry at the place of that call with the output or the error the tool finished with. |
| AgentRecords.DoneSaysWhy | crates/runtime/src/agent/mod.rs:325-647 | The last event of every run says why it ended, as a condition on its rounds: a plain answer, the way the round that committed nothing went, or the limit. |
| AgentRecords.RoundReportsTools | crates/runtime/src/agent/mod.rs:506-610 | A round that gets to its tools announces the calls, reports each completion with its id, output and time in finishing order, then closes and gives the tokens used, if any. |
| AgentRecords.AnnouncedAtFirstCall | crates/runtime/src/agent/mod.rs:345-420 | The calls are announced while they stream exactly once, at the first event that makes any, and as they then were. |
| AgentTheorems.SenderReachesFirstRoundOnly | crates/runtime/src/agent/mod.rs:47-59 | Over a whole run the first round's tools are dispatched under the sender of the opening message and those of every later round under none: results have the user role and no sender. |
| AgentLoop.StreamRound | crates/runtime/src/agent/mod.rs:345-420 | The stream loop: what is said, and which segment is open, for every event list. |
| AgentLoop.Dispatch | crates/runtime/src/agent/mod.rs:516-575 | The dispatch loop: results in completion order, buffered by call index. |
| AgentLoop.CommitResults | crates/runtime/src/agent/mod.rs:576-601 | Behind the assistant entry one result per call in call order, with that call's id and the text its tool finished with, output or error alike. |
| AgentLoop.PlayRound | crates/runtime/src/agent/mod.rs:337-636 | One turn of the outer loop, with each place the source returns. |
| AgentLoop.RunStream | crates/runtime/src/agent/mod.rs:325-647 | The loop over rounds, up to the iteration limit: the history and the events about which AgentRecords and AgentTheorems speak. |
| History.WellPairedConcat | crates/store/src/session/history.rs:69-76 | Two well-paired histories in a row are well paired. |
| ReloadTransparency.ReloadIsTransparent | crates/runtime/src/engine/session.rs:19-145 | Over any run of safe turns, compactions, rewinds and reloads no command panics, and evicting then loading gives back the live history without its injected entries. |
| ReloadTransparency.StepSyncedIff | crates/runtime/src/engine/session.rs:19-226 | Each command keeps live and stored in agreement if and only if a condition a caller can check beforehand holds. |
| ReloadTransparency.TurnSyncedIff | crates/runtime/src/engine/execution.rs:18-90 | A finished turn keeps them in agreement if and only if preparing it injected at least as many framing entries as it stripped; otherwise the user's own message is the first that storage never sees. |
| ReloadTransparency.PreparedShape | crates/runtime/src/engine/execution.rs:18-48 | A prepared history is the entries that were not injected, one fresh framing entry if and only if a guest spoke among them, always one for a guest's turn, and the message last. |
| ReloadTransparency.UnfinishedTurnIsUnsynced | crates/runtime/src/engine/execution.rs:50-90 | A turn that ends before it is finalized leaves them out of step. |
| ReloadTransparency.GuestRewindLosesMessage | crates/runtime/src/engine/execution.rs:185-330 | The bad case is three commands from a new session: a guest's turn, a rewind, an ordinary turn. |
| ReloadTransparency.GuestTurnsAreSafe | crates/runtime/src/engine/execution.rs:185-330 | In no run of a new session is more than one entry stale, so a guest's turn is always safe and an ordinary one exactly if it frames or nothing is stale. |
| SessionBackend.ReloadFromStore | crates/runtime/src/engine/session.rs:19-226 | Over any safe run of a session the store was asked to create, loading it from the store gives back the live history without its injected entries. |
| SessionBackend.StepBacked | crates/runtime/src/engine/session.rs:47-226 | Each command on the live session is these operations of the store's list, a panic included. |
| ReloadTransparency.CompactSyncs | crates/runtime/src/engine/session.rs:47-83 | Compaction restores agreement whatever was there. |
| ReloadTransparency.NextArchiveIsFree | crates/runtime/src/engine/session.rs:154-192 | The next archive number is above every one in use. |
| ReloadTransparency.RewindSyncedIff | crates/runtime/src/engine/session.rs:85-117 | A rewind keeps agreement if and only if its boundary is not the archive entry, where the code panics with the live history already cut. |
| ReloadTransparency.CutPairedIff | crates/runtime/src/engine/session.rs:85-117 | A cut keeps calls with their results if and only if it is not at a result. |
| ReloadTransparency.RewindPairedIff | crates/runtime/src/engine/session.rs:85-117 | So a rewind does if and only if the entry it lands on is not a result: results count as turns, having the user role. |
| ReloadTransparency.RewindOrphansCall | crates/runtime/src/engine/session.rs:85-117 | Rewinding one turn after a tool round leaves a call without its result. |
| LiveSession.Conversation.Load | crates/runtime/src/engine/session.rs:19-45 | A load makes the archive entry, if there is one, and the stored messages live. |
| LiveSession.Conversation.PrepareHistory | crates/runtime/src/engine/execution.rs:18-48 | Push, strip stale framing, insert fresh framing before the message: the prepared history as a function. |
| LiveSession.Conversation.FinalizeRun | crates/runtime/src/engine/session.rs:204-226 | Persists what follows the length taken before the turn, and panics when that length is past the end. |
| LiveSession.Conversation.Turn | crates/runtime/src/engine/execution.rs:50-90 | A whole turn: prepare, run, finalize. |
| LiveSession.Conversation.FindBoundary | crates/runtime/src/engine/session.rs:85-105 | Answers the one place at a user-role, not injected entry with exactly so many of these from there on; none if and only if zero turns are asked for or there are fewer. |
| LiveSession.Conversation.Rewind | crates/runtime/src/engine/session.rs:85-117 | Drops exactly the last so many turns: the live history is what stood before them, and storage keeps no more; with fewer turns than asked for nothing changes; the panic is the one at the archive entry. |
| LiveSession.BoundaryCounts | crates/runtime/src/engine/session.rs:85-105 | The backward search against a plain count of turns, both ways: where it lands, and when it finds nothing. |
| LiveSession.RewindCuts | crates/runtime/src/engine/session.rs:85-117 | A rewind leaves exactly that many turns fewer, or everything as it was. |
| LiveSession.Conversation.Compact | crates/runtime/src/engine/session.rs:47-83 | The archive goes under the number after the largest in use; live history, summary and stored messages are then the summary alone; an empty history or summary changes nothing. |
| Registry.EvictedWithinBound | crates/runtime/src/session/sessions.rs:184-208 | Eviction ends within the bound, or with only sessions someone holds or is cancelling. |
| Registry.EvictedAreOldest | crates/runtime/src/session/sessions.rs:184-208 | Every victim was used less recently than every candidate that stays. |
| Registry.EvictedOnlyWhileOver | crates/runtime/src/session/sessions.rs:184-208 | Nothing goes once the bound is met: putting the newest victim back exceeds it. |
| Registry.EvictedPart | crates/runtime/src/session/sessions.rs:184-208 | What stays is unchanged, and every victim was free to go. |
| Registry.EvictSettles | crates/runtime/src/session/sessions.rs:184-208 | All of it together for the refreshed figures the sweep works on. |
| Registry.EvictedFresh | crates/runtime/src/session/sessions.rs:188-192 | The sweep works on new figures: every kept session that was not locked has its size of now, every locked one the figure it had. |
| Registry.PickVictim | crates/runtime/src/session/sessions.rs:196-202 | The scan returns the least recently used candidate, or none only when there is none. |
| Registry.Sessions.Evict | crates/runtime/src/session/sessions.rs:184-208 | Both indexes lose exactly the oldest candidates, down to the bound, by figures taken now except of locked sessions. |
| Registry.Sessions.Insert | crates/runtime/src/session/sessions.rs:153-170 | The new session is in and never evicts itself; the whole new index is given. |
| Registry.Sessions.Register | crates/runtime/src/session/registry.rs:26-31 | A live session under the same handle is displaced, so the two indexes stay inverse. |
| Registry.Sessions.Remove | crates/runtime/src/session/registry.rs:33-40 | Both indexes lose it at once. |
| Registry.Sessions.FindByHandle | crates/runtime/src/session/sessions.rs:110-123 | Found if and only if it is live, and touched. |
| Registry.Sessions.Reprice | crates/runtime/src/session/sessions.rs:128-146 | Re-measures an idle session and sweeps only when the cached sum is over. |
| Registry.Sessions.Close | crates/runtime/src/session/sessions.rs:210-214 | Removed, and whether it was there. |
| Registry.Sessions.BeginCancel | crates/runtime/src/session/sessions.rs:216-223 | Marks a live session, which shields it from eviction. |
| Registry.Sessions.EndCancel | crates/runtime/src/session/sessions.rs:225-229 | Clears the mark, safely for one already gone. |
| KvSessions.KvStore.Append | crates/store/src/interface/session.rs:207-241 | Appends to the session's list what of the entries is serialized, raises the count by as many, and the message index holds exactly the messages that were indexable as handed in; an unknown session is an error, an empty append nothing. |
| KvSessions.KvStore.Truncate | crates/store/src/interface/session.rs:267-281 | Keeps a prefix of the list, drops the rest from rows and index; nothing for an unknown session. |
| KvSessions.KvStore.Compact | crates/store/src/interface/session.rs:258-265 | Empties the list and records the marker. |
| KvSessions.KvStore.Load | crates/store/src/interface/session.rs:162-186 | Returns the list in order with the count, metadata and marker. |
| KvSessions.KvStore.Remove | crates/store/src/interface/session.rs:293-310 | Everything of the session goes, its documents from the message and the session index too, and nothing of any other. |
| KvSessions.KvStore.Create | crates/store/src/interface/session.rs:133-160 | Writes the metadata of an empty session; over an existing one the rows agree with an empty session if and only if it had no messages. |
| StoredSessions.AppendFollows | crates/store/src/interface/session.rs:207-241 | Read back after an append: the old messages in place, each new one behind them as it is serialized, count and metadata to match, the marker and every other session as before. |
| StoredSessions.TruncateKeeps | crates/store/src/interface/session.rs:267-281 | Read back after a truncation: the first messages in place, metadata and marker as before, every other session as before. |
| StoredSessions.CompactMarks | crates/store/src/interface/session.rs:258-265 | Read back after a compaction: no message, the metadata as before, the new marker, every other session as before. |
| StoredSessions.RemoveForgets | crates/store/src/interface/session.rs:293-310 | A removed session cannot be loaded, and made anew it starts with no message and no marker. |
| StoredSessions.TruncateUndoesAppend | crates/store/src/interface/session.rs:267-281 | Cutting back to the old count undoes an append, but for the metadata. |
| History.SearchNeverSees | crates/store/src/session/history.rs:151-193 | No tool output, framing or system message is ever indexed, and of a call only its name: ids and arguments make no difference. |
| History.SearchSeesText | crates/store/src/session/history.rs:151-193 | What a user or an assistant says is indexed whole, the user's words weighing more. |
| KvSessions.SpelledInjective | crates/store/src/interface/session.rs:409-428 | No two rows of any sessions share a key, for handles without a separator. |
| KvSessions.MessageScope | crates/store/src/interface/session.rs:422-428 | A scan of a session's message prefix meets its messages and nothing else. |
| KvSessions.ScanIsMessages | crates/store/src/interface/session.rs:162-186 | Such a scan lists the message keys in message order. |
| KvSessions.ParsedIsMessage | crates/store/src/interface/session.rs:569-577 | Reading a key back names a message exactly when it is one, and then that message. |
| Decimal.PaddedOrderIff | crates/store/src/interface/session.rs:420-424 | Zero-padded positions list in numeric order exactly while there are at most 10^12 of them. |
| Decimal.PaddedInjective | crates/store/src/interface/session.rs:420-424 | Two positions are never padded to the same string. |
| FileSessions.FileStore.Append | apps/code/src/backend/session.rs:138-153 | Appends the lines behind whatever the file holds, a torn line included; a store that holds a list holds the longer one; an unknown session is an error. |
| FileSessions.FileStore.Create | apps/code/src/backend/session.rs:86-106 | Writes the metadata of an empty session; over an existing one the directory holds that if and only if it had no messages. |
| FileSessions.FileStore.Truncate | apps/code/src/backend/session.rs:171-183 | Read, cut, write back is a prefix of the list. |
| FileSessions.FileStore.Compact | apps/code/src/backend/session.rs:166-169 | Empties the list and records the marker; without a session directory the write fails and nothing changes. |
| FileSessions.FileStore.Load | apps/code/src/backend/session.rs:108-120 | Returns the list in order; the marker comes back trimmed. |
| FileSessions.FileStore.Remove | apps/code/src/backend/session.rs:193-197 | The session's directory goes, and no other's. |
| FileSessions.ReadLines | apps/code/src/backend/mod.rs:133-174 | Whole lines are read back as the entries they were written from, whatever follows them. |
| FileSessions.Buffered | apps/code/src/backend/mod.rs:122-141 | The write loop is the lines as a function. |
| FileSessions.TornLineDropped | apps/code/src/backend/mod.rs:155-174 | A fragment a crash left at the end is dropped unless it can be read as it stands. |
| FileSessions.AppendAfterTearIff | apps/code/src/backend/mod.rs:131-174 | An append over a torn file adds exactly what it was given to what could be read if and only if the fragment reads as nothing and the fragment with the first line glued on reads as that line. |
| FileSessions.TornNewlineLoses | apps/code/src/backend/mod.rs:131-174 | A line torn before its newline is read until the next append, and then one of the two entries is lost, or both. |
| FileNames.EncodeRoundTrip | apps/code/src/backend/mod.rs:60-93 | A name read back from its file name is itself. |
| FileNames.EncodeInjective | apps/code/src/backend/mod.rs:60-71 | Two names never share a file name. |
| FileNames.EncodedIsOneComponent | apps/code/src/backend/mod.rs:60-71 | An encoded name holds no path separator. |
| FileNames.EscapedIs | apps/code/src/backend/mod.rs:62-71 | ASCII letters, digits and three marks stand for themselves, any other byte for a percent sign and its two upper-case digits. |
| FileNames.EncodedConcat | apps/code/src/backend/mod.rs:62-71 | Each byte is written on its own, whatever stands around it. |
| FileNames.Encode | apps/code/src/backend/mod.rs:62-71 | The encoding loop. |
| FileNames.Decode | apps/code/src/backend/mod.rs:76-93 | The decoding loop, its cursor and its fallback for bytes that are not UTF-8. |
| FileNames.DecodesToItselfIff | apps/code/src/backend/mod.rs:73-93 | A file name reads as itself exactly when it holds no escape or its escapes spell no UTF-8. |
| FileNames.NeverProducedYetDecoded | apps/code/src/backend/mod.rs:73-93 | `%41` is never produced and still reads as `A`. |
| TextIndex.TextStore.IndexText | crates/store/src/text.rs:156-201 | Replaces the document at the key: the three indexes hold afterwards exactly what tokenizing the surviving documents gives, postings, frequencies, counts and lengths. |
| TextIndex.TextStore.DropText | crates/store/src/text.rs:203-221 | Removes one document from rows, postings and totals; nothing for an unknown key. |
| TextIndex.TextStore.DropTextPrefix | crates/store/src/text.rs:223-233 | Removes every document whose key has the prefix and no other. |
| TextIndex.TextStore.ScanDocs | crates/store/src/text.rs:223-233 | The document keys the scan of doc records recovers are exactly those with the prefix. |
| TextIndex.DroppedIndexes | crates/store/src/text.rs:203-221 | Retracting a document's recorded postings leaves an exact index; the totals never saturate. |
| TextIndex.AddedIndexes | crates/store/src/text.rs:156-201 | Writing a new document's rows leaves an exact index. |
| TextIndex.StillIndexed | crates/store/src/text.rs:295-325 | A change to one document of one index leaves the other two exact. |
| TextIndex.SpelledInjective | crates/store/src/text.rs:295-313 | The key layout is injective over indexes, terms and document keys, the latter with separators in them. |
| TextIndex.SpelledIsBuilt | crates/store/src/text.rs:295-313 | The spelled keys are the ones the key builder makes of their parts. |
| TextIndex.PostingScope | crates/store/src/text.rs:326-351 | A term's scan meets exactly the postings of the terms it matches, exact or prefix. |
| TextIndex.DocScope | crates/store/src/text.rs:295-304 | A scan of doc records meets exactly the documents with the prefix. |
| TextIndex.CountTerms | crates/store/src/text.rs:169-172 | The counting loop: each distinct token with its frequency. |
| Keyspace.BuildKey | crates/store/src/kv.rs:118-126 | The key loop: realm, then each part behind a separator. |
| Keyspace.PartsSplit | crates/store/src/kv.rs:112-134 | Separator-free parts can be told apart from what follows them. |
| TextSearch.Postings | crates/store/src/text.rs:324-356 | Exactly the matching (term, document) pairs, each once, with the frequency. |
| TextSearch.BoundaryCuts | crates/store/src/text.rs:397-405 | The cut lands on the document key, for exact and prefix scans. |
| TextSearch.Search | crates/store/src/text.rs:235-289 | The ranked hits: every document's score is the sum over the terms' postings; no score stands above a better one, ties go by key, and a positive score is left out only when the list is full of better ones. |
| TextSearch.DocLen | crates/store/src/text.rs:263-274 | A document's length and weight, read once and remembered. |
| Tokens.QueryTerms | crates/store/src/text.rs:364-383 | The term loop keeps each term once, in order of first mention. |
| Tokens.TermsAreTheWords | crates/store/src/text.rs:364-383 | The terms are what the words ask for, and nothing else. |
| Tokens.TokensByWord | crates/store/src/text.rs:407-415 | Tokenizing a query is tokenizing its words one after the other. |
| Tokens.QueryIsItsTokensIff | crates/store/src/text.rs:364-415 | A query asks the index for exactly its tokens if and only if no starred word asks for anything, no word splits into several tokens, and no token repeats. |
| Tokens.TokensAreTerms | crates/store/src/text.rs:407-415 | Tokens are non-empty, hold no separator, and are no stopwords. |
| Tokens.TokensAreRuns | crates/store/src/text.rs:407-415 | The tokens of a text are its maximal alphanumeric runs of two characters or more that are no stopword, in lower case, in order and with multiplicity: no word is left out and none made up. |
| Tokens.WordIsItsToken | crates/store/src/text.rs:407-415 | An alphanumeric word is its own one token in lower case, unless it is a single character or a stopword. |
| Tokens.WordsAreRuns | crates/store/src/text.rs:364-383 | The words of a query are its maximal runs without white space. |
| Tokens.PlainWordAsks | crates/store/src/text.rs:364-395 | A plain word asks for itself as a whole term; with stars behind it for every term it begins, even where it is short or a stopword. |
| Ranking.RankingUnique | crates/store/src/text.rs:281-288 | A set of scores has one ranking. |
| Ranking.SortCut | crates/store/src/text.rs:281-288 | That ranking, cut: no score above the one before it, ties in the given order, and nothing left out that beats what is in. |
| Ranker.Rank | apps/code/src/backend/search.rs:20-64 | The ranked positions: scores from counting through every document, best first, ties to the earlier one, and a positive score left out only when the list is full of better ones. |
| Ranker.OneTermScores | apps/code/src/backend/search.rs:34-56 | One term's score from plain counts: its multiplicity in the document, the number of documents that hold it, the lengths, and the weight. |
| Ranker.TermsAdd | apps/code/src/backend/search.rs:34-56 | The scores of a query's terms add up, a repeated term as often as it is asked for. |
| Ranker.ScoreAll | apps/code/src/backend/search.rs:34-56 | The nested loops fill the score array with exactly those sums. |
| Ranker.IndexScores | apps/code/src/backend/search.rs:1-6 | The index feeds the score the same term frequency, document frequency, length and total as the ranker; only the number of documents leaves out those without a token. |
| Ranker.ScoresAgreeIff | apps/code/src/backend/search.rs:20-56 | Whatever the formula, the scores agree if and only if every document has a token or there is nothing to score. |
| Ranker.SearchIsRank | apps/code/src/backend/search.rs:1-6 | For every query that asks for exactly its tokens, over documents that each have a token and are listed in key order, search and ranker return the same hits, scores, order and cut. |
| McpInterleavings.RunKeepsSound | lib/mcp/src/handler.rs:314-379 | Under every interleaving of lock-held sections the ownership bookkeeping holds, one operation at a time holds a gate, and processes start only from a config of their own fingerprint. |
| McpInterleavings.NoRespawnUntilReset | lib/mcp/src/handler.rs:420-457 | Once a connect settles a peer, no process is started for it until a reap of it, a reset of it, or its last claim going. |
| McpInterleavings.SettledStays | lib/mcp/src/handler.rs:420-501 | Which acts take a peer out of a settled status, both directions. |
| McpInterleavings.UsedPeersAreSpared | lib/mcp/src/handler.rs:250-501 | Under every interleaving: a peer called or settled at some time is in no reap's expired set before a whole timeout has gone by. |
| McpInterleavings.QuietPeersAreReaped | lib/mcp/src/handler.rs:461-501 | One that has been quiet for the timeout is taken by the next reap, its process marked to go. |
| McpAgreement.UndisturbedRunsAgree | lib/mcp/src/handler.rs:250-589 | Over every run in which no reap, reset or last-claim release of a peer overlaps another operation on that peer and nothing is dropped where it waits, other peers interleaving at will: no peer ever has two processes, and whenever nothing is in progress status and process agree for every peer. |
| McpAgreement.StepKeepsSteady | lib/mcp/src/handler.rs:250-589 | Each lock-held section keeps the invariant that says so: what every half-done operation relies on, and agreement for every peer in nobody's hands. |
| McpAgreement.QueuedConnectSettles | lib/mcp/src/handler.rs:387-457 | Connects joined in any interleaving: a tracked peer one queued for is settled once nothing is in progress, unless it was reaped, reset or let go of meanwhile. |
| McpInterleavings.ReconnectOverlapsConnect | lib/mcp/src/handler.rs:535-553 | A run that ends Connected, with no operation left and no process. |
| McpInterleavings.FailureAfterReap | lib/mcp/src/handler.rs:274-294 | A run that ends Failed, never used and offering no tool. |
| McpInterleavings.StuckStays | lib/mcp/src/handler.rs:461-501 | Such a peer stays so: no reap takes it, no connect starts it, no tool of it is offered. |
| McpInterleavings.TwoProcessesOneId | lib/mcp/src/handler.rs:420-457 | A run with two processes under one id: the gate goes with the entry, the waiting connect does not. |
| McpState.ClaimedOwned | lib/mcp/src/handler.rs:314-379 | Registering keeps the reverse lookup exact, moving an earlier claim. |
| McpState.UnclaimedOwned | lib/mcp/src/handler.rs:559-589 | Unregistering keeps it exact; no tracked peer is left without an owner. |
| McpState.WithoutRuns | lib/mcp/src/bridge.rs:91-103 | Removing an id removes all its processes and no other. |
| McpHandler.Handler.RegisterForAgent | lib/mcp/src/handler.rs:314-379 | The claim is with the new peer and no other; an entry made now is disconnected and unused; a peer whose last claim left is gone with its process, and every other is as it was. |
| McpHandler.Handler.UnregisterForAgent | lib/mcp/src/handler.rs:559-589 | The claim is gone; with a last claim its peer goes, process and all, and every other peer is as it was. |
| McpHandler.Handler.ConnectPeer | lib/mcp/src/handler.rs:420-457 | Run to completion: an unsettled peer has the outcome, its tools or its error, the time of use, and one process more exactly if it came up; a settled or unknown peer changes nothing, nor does any other peer. |
| McpHandler.Handler.EnsureConnected | lib/mcp/src/handler.rs:387-417 | Everything the agent declared is settled afterwards, each by its own outcome, and what was settled before, or is not the agent's, is as it was. |
| McpHandler.Handler.ReapIdle | lib/mcp/src/handler.rs:461-501 | Exactly the settled peers quiet for the timeout are put down, declaration and error kept, process gone; every other peer and process is as it was. |
| McpHandler.Handler.ReconnectForAgent | lib/mcp/src/handler.rs:535-553 | Run to completion, the named peer is settled by the new outcome under the same claims, with exactly one process if it came up; an undeclared one changes nothing. |
| McpHandler.Handler.Call | lib/mcp/src/handler.rs:250-294 | The tracked peer's time of last use is now, whatever comes of the call; its answer is the far side's if the call gets there; only a transport error marks the entry, once; declaration, tools and every other entry stay. |
| McpOperations.ReapGoes | lib/mcp/src/handler.rs:461-501 | A whole reap is an undisturbed run of its sections, ending in the reaped state. |
| McpOperations.ConnectGoes | lib/mcp/src/handler.rs:420-457 | So is a whole connect, whichever way the attempt ends. |
| McpOperations.ReconnectGoes | lib/mcp/src/handler.rs:535-553 | So is a reconnect, from the claim to the last section. |
| McpOperations.RegisterGoes | lib/mcp/src/handler.rs:314-379 | So is a registration, with the clearing of what it orphans. |
| McpOperations.UnregisterGoes | lib/mcp/src/handler.rs:559-589 | So is an unregistration. |
| McpOperations.CallGoes | lib/mcp/src/handler.rs:250-294 | So is a call, broken or not. |
| McpOperations.ReapingAgrees | lib/mcp/src/handler.rs:461-501 | A reap keeps agreement and bounds the quiet time of every settled peer. |
| McpOperations.ConnectingAgrees | lib/mcp/src/handler.rs:420-457 | A connect keeps agreement, and settles. |
| McpOperations.ReconnectingAgrees | lib/mcp/src/handler.rs:535-553 | A reconnect keeps agreement, and a successful one has exactly one process. |
| McpOperations.RegisteringAgrees | lib/mcp/src/handler.rs:314-379 | A registration keeps agreement and ownership, dropping the process of a peer it orphans. |
| McpOperations.UnregisteringAgrees | lib/mcp/src/handler.rs:559-589 | So does an unregistration. |
| McpOperations.CallingAgrees | lib/mcp/src/handler.rs:250-294 | So does a call. |
| McpHandler.Bridge.RemoveServer | lib/mcp/src/bridge.rs:91-103 | The retain loop and the names it reports. |
| McpHandler.Bridge.Call | lib/mcp/src/bridge.rs:123-161 | Rejected unless the peer is there and exports the tool. |
| MergePatch.Merge | crates/crabtalk/src/protocol/mod.rs:274-287 | The loop, in whatever key order, is one function of base and patch. |
| MergePatch.MergedIsPatchedIff | crates/crabtalk/src/protocol/mod.rs:271-287 | It is the algorithm of RFC 7386 section 2 if and only if no patch object that lands on a missing or non-object value holds a null at any object depth. |
| MergePatch.MergedTwiceIff | crates/crabtalk/src/protocol/mod.rs:271-287 | It is idempotent on exactly the same bases and patches. |
| MergePatch.PatchedTwice | crates/crabtalk/src/protocol/mod.rs:271-287 | The RFC's algorithm is idempotent on all of them. |
| MergePatch.NullSurvives | crates/crabtalk/src/protocol/mod.rs:271-287 | A null inside an object the store does not have is stored as null. |
| Transcript.ChunkingIsInvisible | apps/code/src/tui/stream.rs:105-136 | However a response is cut into chunks, the transcript is the same. |
| Transcript.ChunksJoin | apps/code/src/tui/stream.rs:105-136 | Two chunks do what their concatenation does, from every state. |
| Transcript.TextKeepsOrder | apps/code/src/tui/stream.rs:105-136 | Text comes to the page in the order it was said: from any coherent page a chunk adds exactly the lines it completes, fences left out, behind everything there. |
| Transcript.ThinkingKeepsOrder | apps/code/src/tui/stream.rs:138-145 | So does thinking, when no block is open. |
| Transcript.FirstLineIsMarked | apps/code/src/tui/stream.rs:105-136 | The first line with anything on it carries the mark of a new response, however many blank ones come first, and uses it up. |
| Transcript.OtherLinesAreNot | apps/code/src/tui/stream.rs:105-136 | No later line does until a tool has ended or the next turn begins. |
| Transcript.ToolRoundShows | apps/code/src/tui/stream.rs:147-188 | A round of tools as shown: half a line first, the tool with its labels, every output in turn; the tool ends failed if and only if one of its own outputs did. |
| Transcript.ShownNeverChanges | apps/code/src/tui/stream.rs:67-77 | Over every run, what has been handed out stays, unaltered and in place, at the front of the items. |
| TurnDisplay.TurnLeavesInFlight | crates/runtime/src/agent/event.rs:44-120 | Any drained run forwarded to a page leaves in flight what was in flight, one tool per committed round with calls, and the announcements of the round that ended the run, less one: each round is announced twice and ended once. |
| TurnDisplay.TurnSettlesIff | apps/code/src/tui/mod.rs:241-266 | On a page with nothing in flight a turn ends with everything settled if and only if it had at most one tool round, counting what the last round announced. |
| TurnDisplay.ForwardedSays | apps/code/src/tui/mod.rs:241-266 | Of any run the transcript is given all text, all thinking and every tool's output in order, and nothing else of these. |
| TurnDisplay.StreamReachesTheTranscript | apps/code/src/tui/mod.rs:241-266 | So what the model streams in a round is, text for text and thought for thought, what the transcript is given of it. |
| Transcript.TwoToolRoundsStayInFlight | apps/code/src/tui/stream.rs:147-197 | From a new page two tool rounds and the end of the turn leave the first tool running, and nothing behind it is ever handed out. |
| Transcript.RunFlies | apps/code/src/tui/stream.rs:147-197 | Over every run the tools in flight are those begun less those ended, one for one. |
| Transcript.FinishHoldsIff | apps/code/src/tui/stream.rs:190-197 | The end of a turn leaves text behind exactly for a table, and for a code block not in the middle of a line. |
| Transcript.TableStaysHeld | apps/code/src/tui/stream.rs:190-197 | A response of one table row, from a new page, ends with the row in no item. |
| Transcript.ConservedIff | apps/code/src/tui/stream.rs:105-197 | Over every run all text pushed, fences and line ends aside, is in items, open block, thinking or open line at its end, if and only if no thinking ever arrived while a block held some. |
| Transcript.RunConserves | apps/code/src/tui/stream.rs:105-197 | What a page comes to hold is what it was handed, as read off the events alone, less what thinking took the place of. |
| Transcript.ThinkingForgetsCode | apps/code/src/tui/stream.rs:138-145 | The start of a code block and then thinking, from a new page: the block's text is nowhere. |
| Transcript.Transcript.SettledItems | apps/code/src/tui/stream.rs:67-77 | The newly settled items up to the first in flight, and the committed mark behind them. |
| Transcript.Transcript.PushText | apps/code/src/tui/stream.rs:105-136 | The per-character loop, thinking put away and marker owed first. |
| Transcript.Transcript.Line | apps/code/src/tui/stream.rs:207-247 | A whole line in each mode. |
| Transcript.Transcript.PushToolDone | apps/code/src/tui/stream.rs:174-188 | Settles the last running tool and no other item. |
| Transcript.Transcript.PushToolStart | apps/code/src/tui/stream.rs:147-160 | Half-written text first, then a gap and the running tool with its labels. |
| Transcript.Transcript.Finish | apps/code/src/tui/stream.rs:190-197 | Settle, flush thinking, flush the line. |
| Transcript.Transcript.FlushLine | apps/code/src/tui/stream.rs:271-290 | Half a line becomes an item; inside a code block, the block does. |
| Transcript.Transcript.PushThinking | apps/code/src/tui/stream.rs:138-145 | Thinking accumulates and becomes the mode. |

## Left out

- File handles, syncs and I/O errors of crabdb: the disk is bytes and each call is atomic apart from the named crash points.
- DbRuns.RunRebuildsIff: a crash is a write torn at the append position, of a record or of snapshot bytes; a header torn within its 32 bytes and a compaction cut off in the middle of a run are not commands, the latter is CrabDb.CompactionCrashesRecover.
- A crash whose leftover does read as a record: the runs end there, and what the store holds afterwards is said for one such case only.
- CrabDb.CrabDb.Compact: the store's own path as its temporary is described by the contract, but `Valid` asks for two different paths, since nothing holds after such a compaction.
- The message accumulator, the provider, JSON and the wire types: the accumulator is what it answers for a list of events, codecs are lawful functions, and entries are their role, text, agent, sender, calls and result; a result entry is taken to have the user role, as every role that is neither assistant nor system does.
- AgentLoop.PlayRound: durations, model name and error wordings are values passed through; `step` and its join of dispatches, a second form of the same loop, is not modelled.
- Archive names are their sequence numbers; two compactions racing for one number, which the source admits, are not modelled.
- Session event traces, listings, the agent index and its keys, titles and summaries in the text index, `search_sessions` and its windows: thin over what is modelled.
- KvSessions.KvStore.Append: a session holds at most 10^12 messages and handles hold no separator, beyond which the key layout does not keep order or sessions apart.
- McpHandler.Handler.EnsureConnected: connects one peer after another where the source joins them; that any joining settles them is McpAgreement.QueuedConnectSettles.
- SessionBackend.ReloadFromStore: which text an archive name stands for is a map given from outside; titles and other metadata are opaque.
- 32-bit token counts and 64-bit totals of the text index: they are unbounded here.
- TextSearch.Search: scores are real and the formula over (tf, df, len, docs, total) is any function; for a prefix term the document frequency is the number of postings it matched, as in the code, and nothing more is claimed about such scores.
- Unicode: character classes, lower-casing and stopwords are parameters; word-wise and character-wise lower-casing are kept apart as in the code.
- Floating point anywhere, including score ordering under rounding.
- McpInterleavings.RunKeepsSound: says nothing of deadlock; register and unregister take their two locks in opposite orders.
- MCP event broadcasts, HTTP and stdio transports, the reaper's timer; time is any number each step is given.
- Transcript rendering, markdown, colours and widths; tool labels and failed outputs are inputs.
- The rest of the protocol server and clients, the event bus, the sandbox, harness images, network tools and installers.
