# Bottle: event replication, bounded buffering, resumable workflows

A Raspberry Pi agent numbers its events, keeps a sliding window of them and streams them to a
laptop, which keeps a bounded, redacted buffer and reopens the stream from a cursor after every
failure. The agent also provisions and updates itself in workflows that must survive host
failures and being killed. This project models those parts in Dafny and proves what they promise,
and shows exactly where a promise made in a comment or a message does not hold.

## How the model is built

**Events.** `EventBus` gives every bus operation as a function on the bus state, together with the
full history of published events and, for each subscriber, what it received, what waits in its
channel and what was dropped. Its invariant ties the window and every channel to that history.
`LiveBus` is the bus as the source keeps it, with mutable fields and shared channels; each method
is proved to do what the function says.

`Replication` is the whole path as a step system: publish and foreign subscribers, open, serve,
forward, decode, refuse, break, deliver, fail, end. A run is any sequence of steps; a step that is
not possible changes nothing, so a statement about `Exec` is a statement about every interleaving.
`Replication.Inv` links the bus window, the channel, the wire, the client's channel and the cursor.
`ReplicationResults` holds what follows for every run: order, conservation (every acceptable event
up to the cursor was accepted or was dropped from a full channel, never both), prefix delivery,
exactly when a client resumes, when a refusal is marked, and two losses that go unreported.
`PullStream` is one receive over the two client channels, and what can follow the end of a stream.
`Display` puts the step system and the bounded buffer together: what the laptop shows of the Pi's events.

`Events.AddTo` and `Events.MarkGap` say what the client's log of a call becomes. They are shared by
the step system, by `ClientBuffer` and by `Consumer`, so the three speak of the same history.
`Retention` says what a bounded buffer keeps of a history: all of it, or the overflow marker and
the longest suffix that fits next to it. `ClientBuffer.Buffer` is the buffer over an array that is
resliced, regrown and shifted in place; its invariant is that the entries equal that function of
everything ever appended. `Consumer.Client` is the receive loop on top of it. `Redaction` is the
payload rewriting, with a reference that looks along paths.

**Workflows.** `Machine` is the Pi as the workflows meet it: a script answers every external call
with success, refusal, or the end of the process with or without the effect, so a statement about
all scripts covers every host behaviour and a crash at every call. `FileJobs` is the job file,
`Provisioning` one provisioning run, `ProvisioningRuns` any number of runs for any IDs, `Releases`
the release directories and the current link, `Updating` one update run and any number of them.
`ProvisioningEndings` and `UpdateEndings` say how every run ends and what it leaves on file, told from
the request and the script by counting calls. In each, a function gives
the outcome and the new world, the source's methods are proved against it, and the results are
proved about it.

**Connections.** `Session` is one control-plane connection on the Pi, `Agent` the handler that joins
sessions, workflows and bus, and `Tunnel` the laptop tunnel's goroutines and their shutdown, again
as a step system.

## Where the code does not do what it says

- A dropped event need not show as a history gap on the next subscribe, as the comment on `Publish`
  (bottle-agent/internal/eventbus/eventbus.go:37-42) has it: a later delivered event moves the cursor
  past it (`ReplicationResults.DropGoesUnreported`). The accepted list is complete exactly when this
  never happened (`ReplicationResults.CompleteIffNothingLost`).
- "Gaps are never hidden" (bottle-tui/internal/controlplane/client.go:198-199): the receiver may see
  the closed event channel before the waiting resync error, or the connection may break before the
  resync reply is read, and then nothing marks the refusal (`ReplicationResults.RefusalGoesUnmarked`,
  `ReplicationResults.UnmarkedFromStart`). Every refusal is marked if and only if neither happened and
  none is under way (`ReplicationResults.MarkedUnlessHidden`).
- The stream does not resume after a gap: the marker does not move the cursor, so the client can accept
  another event if and only if its next event is still retained or the stream still brings one
  (`ReplicationResults.ResumesIffRetained`, with a stuck run in `ReplicationResults.StuckIfEvicted`).
- The comment on `Recv` (bottle-tui/internal/controlplane/eventstream.go:19-21) says that every receive
  after a closed channel yields the end of the stream. An event can follow (`PullStream.EventAfterEnd`):
  exactly when one channel is closed and drained and the other still holds something
  (`PullStream.EndBeforeMore`).
- Operations are not run exactly once: completion is recorded at the next Put, so a crash can repeat the
  last one (`ProvisioningRuns.CrashesRepeat`), once per crash at most (`ProvisioningRuns.OncePlusCrashes`).
  They are if and only if no run dies in an operation that took effect, or after one and before its Put
  lands (`ProvisioningRuns.CleanIffNothingForgotten`); other deaths repeat nothing.
- A failed activation or rollback may have switched all the same, exactly when what failed was the restart
  (`Releases.FailedSwitch`, `Releases.RestartFailureMoves`, `Updating.UpdateResult`).
- "Prior release restored" (bottle-agent/internal/lifecycle/lifecycle.go:245) holds of the link exactly
  when there was a prior release and its name leads back to it; a first update that fails its health check
  leaves the current link on the releases directory (`Updating.FirstUpdateRollsBack`). It holds of the
  release itself exactly when besides the update was to another version or fetched what was already stored
  (`Updating.RollbackRestores`, `Updating.RollbackCases`): an update to the active version that is rolled
  back leaves the link on the new, unhealthy payload (`Updating.ReupdateRollsBack`).
- An update to the version that is already active stages over it, and may leave the link on a release
  whose payload is cut short (`Updating.RestageLeavesPartial`); an update to another version cannot
  (`Updating.OtherReleaseKept`). It does so exactly when it gets as far as staging, opens the file, and
  the write fails or dies (`Updating.CutShortIff`, over any sequence of updates
  `Updating.WholeUnlessCutShort`).
- Close waits for active relays to exit (bottle-tui/internal/tunnel/tunnel.go:155), but a relay that waits
  for its opener does not see the cancelled context: the opener reads the Pi's replies without a deadline
  and outside the context (bottle-tui/internal/tunnel/mtls.go:69 and 80), and Close closes neither that
  connection nor the local one. With a Pi that completes the handshake and then stays silent, Close does
  not return (`Tunnel.CloseCanHang`). It can end without the opener if and only if no call of the opener is
  pending (`Tunnel.CloseEndsIffNothingPending`).
- The buffer exceeds its byte limit exactly when the overflow marker alone does (`Retention.KeepBounds`,
  `ClientBuffer.OverLimit`); the newest entry stays exactly when it fits next to it
  (`Retention.NewestIsKept`).
- A sensitive key below a list that is directly in a list is not redacted
  (`Redaction.NestedListKeepsSecret`), and only such are not (`Redaction.SecretReadableIff`).

## Model

| member | source | states |
|---|---|---|
| `EventBus.SubscribeExact` | bottle-agent/internal/eventbus/eventbus.go:76-88 | A subscribe is accepted if and only if the cursor is not ahead of the bus and every event published after it is still retained. |
| `EventBus.BacklogExact` | bottle-agent/internal/eventbus/eventbus.go:90-95 | The backlog of an accepted subscribe is exactly the events published after the cursor. |
| `EventBus.BacklogIsSuffix` | bottle-agent/internal/eventbus/eventbus.go:90-95 | Filtering a window by sequence number leaves the suffix past the cursor. |
| `EventBus.OfferKeeps` | bottle-agent/internal/eventbus/eventbus.go:60-65 | A non-blocking send keeps the channel's history equal to the published events after the cursor without the dropped ones, and can only drop after the first 64 later publishes. |
| `EventBus.PublishKeeps` | bottle-agent/internal/eventbus/eventbus.go:43-67 | A publish keeps the bus invariant: numbering, the sliding window, and every channel's history. |
| `EventBus.SubscribeKeeps` | bottle-agent/internal/eventbus/eventbus.go:76-107 | So does a subscribe, whose new channel holds the whole backlog and has room for 64 more. |
| `EventBus.RunKeeps` | bottle-agent/internal/eventbus/eventbus.go:43-124 | So does any sequence of publishes, subscribes, unsubscribes and receives. |
| `EventBus.RetainedIsNewest` | bottle-agent/internal/eventbus/eventbus.go:47-59 | After any calls the window is the newest min(published, limit) events, where the limit is the one asked for, or 2000 for one that is not positive, with consecutive numbers ending at the last one. |
| `EventBus.KeptIncreasing` | bottle-agent/internal/eventbus/eventbus.go:60-65 | The events a channel carries are strictly increasing, lie after its cursor, and are the published ones under their numbers. |
| `EventBus.KeptComplete` | bottle-agent/internal/eventbus/eventbus.go:60-65 | Every event after the cursor that was not dropped is among them. |
| `EventBus.KeptPrefix` | bottle-agent/internal/eventbus/eventbus.go:60-65 | Up to any point before the first drop none is missing. |
| `EventBus.DeliversSelection` | bottle-agent/internal/eventbus/eventbus.go:60-65 | What went into an open channel is an increasing selection of the events after its cursor that misses exactly the dropped ones. |
| `EventBus.SubscriptionDelivers` | bottle-agent/internal/eventbus/eventbus.go:60-107 | For every run and open channel: such a selection, complete up to the first publish that found the channel full, and always complete for the backlog and the first 64 later publishes. |
| `EventBus.RefusalIsFinal` | bottle-agent/internal/eventbus/eventbus.go:56-88 | A cursor refused because its events were evicted is refused after any further calls. |
| `LiveBus.Chan.Offer` | bottle-agent/internal/eventbus/eventbus.go:61-64 | A send queues the event if there is room and otherwise drops it, changing nothing else. |
| `LiveBus.Chan.Fill` | bottle-agent/internal/eventbus/eventbus.go:101-103 | Sending the backlog into a channel with room queues all of it in order. |
| `LiveBus.Bus.constructor` | bottle-agent/internal/eventbus/eventbus.go:28-35 | A new bus is empty and keeps the limit asked for, or 2000 for one that is not positive. |
| `LiveBus.Bus.Publish` | bottle-agent/internal/eventbus/eventbus.go:43-67 | The mutating publish takes the whole bus, channels included, to the state of the publish function and returns the numbered event. |
| `LiveBus.Bus.Record` | bottle-agent/internal/eventbus/eventbus.go:47-59 | Numbers and retains the event and slides the window. |
| `LiveBus.Bus.FanOut` | bottle-agent/internal/eventbus/eventbus.go:60-65 | Whatever the order of the map, every open channel is offered the event exactly once. |
| `LiveBus.Bus.Replay` | bottle-agent/internal/eventbus/eventbus.go:90-95 | The loop collects exactly the retained events past the cursor, in order. |
| `LiveBus.Bus.Prepare` | bottle-agent/internal/eventbus/eventbus.go:90-103 | The new channel is fresh, holds the backlog and has 64 places left. |
| `LiveBus.Bus.Subscribe` | bottle-agent/internal/eventbus/eventbus.go:76-115 | Returns a history gap exactly for a refused cursor, and otherwise registers a fresh channel, leaving the others alone. |
| `LiveBus.Bus.Unsubscribe` | bottle-agent/internal/eventbus/eventbus.go:117-124 | Removes and closes the channel, which keeps what it holds for its receiver; an unknown ID changes nothing. |
| `Replication.ElsewhereKeeps` | bottle-agent/internal/eventbus/eventbus.go:43-124 | A publish or another subscriber's call at any moment keeps the system invariant that links window, channel, wire, client channel and cursor. |
| `Replication.ServeKeeps` | bottle-agent/internal/controlplane/server.go:261-276 | So does the Pi's handling of a subscribe, accepted or refused. |
| `Replication.ForwardKeeps` | bottle-agent/internal/controlplane/server.go:271-276 | So does moving an event from the channel to the wire, even for a client that is gone. |
| `Replication.LocalKeeps` | bottle-tui/internal/controlplane/client.go:200-247 | So do opening, decoding, reading a refusal, a broken connection that abandons what is under way, and seeing the closed stream. |
| `Replication.FailKeeps` | bottle-tui/internal/model/events.go:354-374 | So does an error received by the loop: a resync error marks a gap and leaves the cursor, any other ends the stream. |
| `Replication.GapIsLost` | bottle-tui/internal/model/events.go:107-109 | Between the cursor and a received acceptable event lie only unacceptable events and events this stream's channel dropped. |
| `Replication.DeliverLog` | bottle-tui/internal/model/events.go:348-353 | Delivering an event moves the cursor exactly when it is acceptable, and the accepted list stays all acceptable events up to the cursor but the lost ones. |
| `Replication.NextKeeps` | bottle-tui/internal/model/events.go:332-376 | Every step of the system keeps the invariant. |
| `Replication.ExecKeeps` | bottle-tui/internal/model/events.go:332-376 | Every interleaving keeps it. |
| `Replication.SurvivingElements` | bottle-tui/internal/model/events.go:87-112 | The reference list of accepted events is strictly increasing and each entry is the redaction of the event published under its number. |
| `ReplicationResults.ReachInv` | bottle-tui/internal/model/events.go:332-376 | Every state reachable from a fresh bus and client satisfies the invariant. |
| `ReplicationResults.AcceptedInOrder` | bottle-tui/internal/controlplane/eventstream.go:24-40 | In every run accepted events have strictly increasing numbers up to the cursor, each the redaction of the event published under its number: nothing invented, repeated or reordered. |
| `ReplicationResults.NothingVanishes` | bottle-tui/internal/model/events.go:87-112 | In every run each acceptable event up to the cursor was accepted or is lost, never both, and a lost one found this client's channel full. |
| `ReplicationResults.CompleteIffNothingLost` | bottle-agent/internal/eventbus/eventbus.go:37-65 | The accepted list is every acceptable event up to the cursor if and only if no dropped event was overtaken. |
| `ReplicationResults.PrefixDelivery` | bottle-tui/internal/controlplane/client.go:200-247 | If all events are acceptable and no publish found this client's channel full, the accepted list is exactly the first LastSequence events, through any disconnects, abandoned buffers and refusals. |
| `ReplicationResults.ReadsAhead` | bottle-tui/internal/controlplane/client.go:201-244 | The client reads on exactly while fewer than 32 events wait in its channel. |
| `Display.ShownInOrder` | bottle-tui/internal/model/events.go:87-224 | In every run and for any bounds, the Pi's events in the buffer are the last of the accepted ones without a gap, in order, each once, each a clean copy of the event published under its number. |
| `Display.RunLogs` | bottle-tui/internal/model/events.go:87-112 | In every run the accepted events are exactly the numbered entries of the history. |
| `Display.ViewIsClean` | bottle-tui/internal/model/events.go:172-180 | Every numbered event that a filter shows of the buffer is a clean copy of the event published under its number. |
| `ReplicationResults.OnlyEvictionRefuses` | bottle-agent/internal/eventbus/eventbus.go:80-88 | The client never asks for a number ahead of the bus; its cursor is refused exactly when an event after it was evicted; gap markers never outnumber refusals. |
| `ReplicationResults.HiddenExactly` | bottle-tui/internal/controlplane/client.go:220-231 | A refusal is hidden by exactly two steps: the connection breaks before the resync reply is read, or the closed event channel is taken while the resync error waits. |
| `ReplicationResults.MarkedUnlessHidden` | bottle-tui/internal/model/events.go:354-363 | In every run refusals = markers + the one under way + hidden ones; so every refusal is marked if and only if none is under way and no such step was taken. |
| `ReplicationResults.StuckIfEvicted` | bottle-agent/internal/eventbus/eventbus.go:56-88 | A client that was never served is refused for good exactly when more was published than the limit asked for, or 2000 for one that is not positive. |
| `ReplicationResults.StuckForever` | bottle-tui/internal/model/events.go:354-363 | Once the next event is evicted and the stream can bring no other, no continuation accepts an event or moves the cursor. |
| `ReplicationResults.CatchesUp` | bottle-tui/internal/model/events.go:336-353 | While the next event is retained, one undisturbed reopening delivers every acceptable event published so far but those lost before. |
| `ReplicationResults.ResumesIffRetained` | bottle-tui/internal/model/events.go:336-375 | In every reachable state, some continuation accepts another event if and only if the next event is not evicted, or the stream is served and either connected or holding an acceptable event. |
| `ReplicationResults.PublishedArrives` | bottle-agent/internal/eventbus/eventbus.go:43-67 | An event published into a served stream that has room and dropped nothing reaches the client with everything before it. |
| `ReplicationResults.HaulMany` | bottle-agent/internal/controlplane/server.go:271-276 | Moving k events through a quiet stream drains k from the channel and records exactly the dropped events the cursor passes. |
| `ReplicationResults.OverrunLoses` | bottle-agent/internal/eventbus/eventbus.go:60-65 | From any stream whose channel is full: a publish that is dropped, and a later one that is delivered, leave the first lost with no refusal and no marker. |
| `ReplicationResults.DropGoesUnreported` | bottle-agent/internal/eventbus/eventbus.go:37-65 | A run from the start in which event 65 is lost and event 66 accepted with no refusal and no marker, contrary to the comment on Publish. |
| `ReplicationResults.RefusalGoesUnmarked` | bottle-tui/internal/controlplane/eventstream.go:24-40 | From any refused cursor the receiver may take the closed event channel before the resync error: the refusal is hidden and leaves no marker, contrary to the comment on StreamEvents. |
| `ReplicationResults.UnmarkedFromStart` | bottle-tui/internal/controlplane/eventstream.go:24-40 | A run from the start with one refusal and no marker. |
| `PullStream.EndWhen` | bottle-tui/internal/controlplane/eventstream.go:24-40 | A receive can yield the end of the stream exactly when one channel is closed and drained, whatever the other holds. |
| `PullStream.MoreAfterEnd` | bottle-tui/internal/controlplane/eventstream.go:24-40 | After a received end of stream, later receives yield an event or an error if and only if a channel still holds one. |
| `PullStream.EndBeforeMore` | bottle-tui/internal/controlplane/eventstream.go:19-40 | The end of the stream can be received before something else exactly when one channel is closed and drained and the other still holds something. |
| `PullStream.EventAfterEnd` | bottle-tui/internal/controlplane/eventstream.go:19-40 | A finished stream on which the end is received and then an event, contrary to the comment on Recv. |
| `PullStream.StepsAreReceives` | bottle-tui/internal/controlplane/eventstream.go:24-40 | The deliver, fail and end steps of the step system are exactly what a receive over the two channels can yield. |
| `Redaction.RedactMap` | bottle-tui/internal/model/events.go:265-286 | Keeps exactly the keys, and every sensitive key is bound to the redacted constant. |
| `Redaction.SpellingDoesNotMatter` | bottle-tui/internal/model/events.go:271 | Letter case and the choice of dash or underscore do not change whether a key is sensitive. |
| `Redaction.SensitiveInside` | bottle-tui/internal/model/events.go:272 | A key with token, secret or password anywhere in it is sensitive. |
| `Redaction.SensitiveWords` | bottle-tui/internal/model/events.go:261-263 | So are authorization, cookie and both spellings of private key. |
| `Redaction.SensitiveOnly` | bottle-tui/internal/model/events.go:261-272 | No other key is. |
| `Redaction.RedactionByPath` | bottle-tui/internal/model/events.go:261-298 | Path by path through maps and lists of any depth: a path through a list in a list before any sensitive key leads exactly where it did; otherwise nothing below a sensitive key is reachable, a sensitive key reads as the redacted constant, and any other path leads somewhere exactly when it did before, to the same leaf or inner list. |
| `Redaction.RedactedHop` | bottle-tui/internal/model/events.go:265-298 | What one move from a map finds after redaction: the constant, the unchanged value beyond or as a list in a list, or the value redacted in turn. |
| `Redaction.SecretReadableIff` | bottle-tui/internal/model/events.go:261-298 | A value at or below a sensitive key stays readable if and only if the path to it goes through a list directly in a list before its first sensitive key. |
| `Redaction.NestedListKeepsSecret` | bottle-tui/internal/model/events.go:288-298 | A payload with a password in a list in a list, which redaction leaves as it is. |
| `Redaction.RedactionIdempotent` | bottle-tui/internal/model/events.go:265-286 | Redacting a redacted map changes nothing. |
| `Redaction.SliceIdempotent` | bottle-tui/internal/model/events.go:288-298 | Likewise for the elements of a list. |
| `Events.RedactCleans` | bottle-tui/internal/model/events.go:94 | What Add stores of an event is the same event with a clean payload: no path without a list in a list finds anything but the constant at or below a sensitive key, and every other leaf reads as before. |
| `Events.ValidWhen` | bottle-tui/internal/model/events.go:237-247 | Exactly which events are valid, and what is said of the others. |
| `Events.AppendedReads` | bottle-tui/internal/model/events.go:87-101 | What Add appends reads as a clean copy of an acceptable event, and otherwise as a marker that gives the reason. |
| `Retention.LongestFitIsLongest` | bottle-tui/internal/model/events.go:204-224 | Dropping the oldest until the bounds hold leaves a suffix within both limits or empty, and every longer suffix breaks one of them. |
| `Retention.LongestFitStep` | bottle-tui/internal/model/events.go:187-202 | Trimming after each append leaves what trimming the whole history would. |
| `Retention.LongestFitTwice` | bottle-tui/internal/model/events.go:194-199 | Trimming first without and then with the marker leaves what trimming with it would. |
| `Retention.WholeOrTrimmed` | bottle-tui/internal/model/events.go:194-197 | The first trimming drops something exactly when the history has more events or bytes than allowed. |
| `Retention.KeepBounds` | bottle-tui/internal/model/events.go:204-224 | Of what is kept: at most the event limit, and one marker; within the byte limit if and only if the marker alone is, which is otherwise all that is kept. |
| `Retention.NewestIsKept` | bottle-tui/internal/model/events.go:204-224 | After any append something is kept, and the newest entry is kept if and only if there is no marker or it fits the byte limit next to the marker; otherwise only the marker is left. |
| `Retention.KeptWasAppended` | bottle-tui/internal/model/events.go:187-224 | Whatever is kept was appended, or is the overflow marker. |
| `Retention.KeepsNewest` | bottle-tui/internal/model/events.go:187-224 | Of the numbered entries of a history a buffer keeps all from some point on. |
| `Retention.SelectDistributes` | bottle-tui/internal/model/events.go:172-180 | Filtering preserves order: it distributes over concatenation. |
| `Retention.SelectCounts` | bottle-tui/internal/model/events.go:172-180 | Filtering keeps all occurrences of an event that each dimension lets through, by having no entries or by turning its key on, and none of another. |
| `Retention.ShowsMatches` | bottle-tui/internal/model/events.go:249-253 | A filter lets through, in each dimension, everything if it has no entries and otherwise the keys it turns on. |
| `Retention.SelectAll` | bottle-tui/internal/model/events.go:249-253 | An empty filter shows everything. |
| `ClientBuffer.Buffer.constructor` | bottle-tui/internal/model/events.go:77-85 | A new buffer is empty, with the bounds asked for, or 5000 events and 8 MiB for bounds that are not positive. |
| `ClientBuffer.Buffer.Push` | bottle-tui/internal/model/events.go:105 | Appending to the slice, into spare capacity or a larger copy, adds one entry at the end. |
| `ClientBuffer.Buffer.Prepend` | bottle-tui/internal/model/events.go:198 | The marker goes in front of the entries in a new array. |
| `ClientBuffer.Buffer.DropSecond` | bottle-tui/internal/model/events.go:218 | The in-place shift removes exactly the second entry. |
| `ClientBuffer.Buffer.EventBytes` | bottle-tui/internal/model/events.go:226-235 | The sum of the entries' encoded sizes, an unencodable one counting nothing. |
| `ClientBuffer.Buffer.TrimToBounds` | bottle-tui/internal/model/events.go:204-224 | The loop ends with the longest fitting suffix, next to the marker if there is one, and reports whether anything was dropped. |
| `ClientBuffer.Buffer.InsertMarker` | bottle-tui/internal/model/events.go:195-200 | The first overflow leaves the marker and the longest suffix of the whole history that fits next to it. |
| `ClientBuffer.Buffer.TrimAfterMarker` | bottle-tui/internal/model/events.go:188-192 | After an overflow, trimming an append leaves what the extended history calls for. |
| `ClientBuffer.Buffer.TrimBeforeMarker` | bottle-tui/internal/model/events.go:194-200 | Before an overflow, trimming keeps all of a history that fits and otherwise inserts the marker. |
| `ClientBuffer.Buffer.Trim` | bottle-tui/internal/model/events.go:187-202 | After an append and a trim the entries are the function of the whole history, the byte count is their size, and the marker is inserted exactly at the first overflow. |
| `ClientBuffer.Buffer.Add` | bottle-tui/internal/model/events.go:87-112 | Succeeds exactly for a valid, encodable event; appends a clean copy of it, the same but for a payload in which nothing sensitive can be read, or a malformed-event marker; moves the cursor only for an accepted event; the entries stay the function of the whole history, a paused view does not change, and everything shown was appended or is the overflow marker. |
| `ClientBuffer.Buffer.AppendNote` | bottle-tui/internal/model/events.go:182-185 | A marker entry is appended and trimmed like an event but leaves the cursor. |
| `ClientBuffer.Buffer.MarkHistoryGap` | bottle-tui/internal/model/events.go:166-170 | Appends exactly one gap marker with the reason, leaves cursor and accepted events, and does not change a paused view. |
| `ClientBuffer.Buffer.SetFilter` | bottle-tui/internal/model/events.go:114-118 | Sets the filter; a paused view does not change. |
| `ClientBuffer.Buffer.SetPaused` | bottle-tui/internal/model/events.go:120-130 | Pausing, again or for the first time, does not change what is shown; resuming shows the filtered entries. |
| `ClientBuffer.Buffer.Visible` | bottle-tui/internal/model/events.go:132-180 | A fresh copy of the view: the one captured at the pause, or the entries that match the filter. |
| `ClientBuffer.Buffer.Bounded` | bottle-tui/internal/model/events.go:187-224 | Any buffer is within the event limit plus its marker, and within the byte limit if and only if its marker is. |
| `ClientBuffer.Buffer.HoldsNewest` | bottle-tui/internal/model/events.go:187-224 | Any buffer holds the newest of the Pi's events ever appended, in order. |
| `ClientBuffer.Buffer.LiveIsHonest` | bottle-tui/internal/model/events.go:172-180 | Everything a live view shows was appended to the history or is the overflow marker. |
| `ClientBuffer.OverLimit` | bottle-tui/internal/model/events.go:194-216 | Under any encoding, with a byte limit below the marker's size, one accepted event that does not fit takes a buffer over its limit, holding only the marker. |
| `ClientBuffer.Buffer.NewestIsVisible` | bottle-tui/main.go:312-330 | Once anything was appended, an unfiltered unpaused view has a last entry, which is the newest one whenever that fits next to the marker. |
| `ClientBuffer.Buffer.LastSequence` | bottle-tui/internal/model/events.go:141-145 | The cursor of the log. |
| `Consumer.EntryPerResult` | bottle-tui/internal/model/events.go:344-363 | Every received result adds exactly one entry, in order: a resync error its gap marker, an event its redaction or its malformed marker. |
| `Consumer.EntryReads` | bottle-tui/internal/model/events.go:350-355 | That entry reads as a clean copy, as a malformed-event marker, or as the gap marker. |
| `Consumer.BroughtBy` | bottle-tui/internal/model/events.go:356-389 | Exactly what brings a status snapshot, and which. |
| `Consumer.CursorIsLargest` | bottle-tui/internal/model/events.go:107-109 | Only acceptable events are accepted, and the cursor is the largest number accepted: markers, malformed events and eviction never move it. |
| `Consumer.NothingAfterEnd` | bottle-tui/internal/model/events.go:366-368 | After a cancelled attempt nothing more is opened or received. |
| `Consumer.ReceiveMore` | bottle-tui/internal/model/events.go:336-375 | What several streams leave is what all their results in a row would leave. |
| `Consumer.StatusIsLatest` | bottle-tui/internal/model/events.go:356-389 | The status snapshot is the one from the last result that brought one. |
| `Consumer.Client.Drain` | bottle-tui/internal/model/events.go:344-364 | Receiving one stream leaves the real buffer and status as the results prescribe. |
| `Consumer.Client.ApplyStatus` | bottle-tui/internal/model/events.go:378-389 | A status event with a textual scan status replaces the snapshot with that text and its time; nothing else does. |
| `Consumer.Client.Consume` | bottle-tui/internal/model/events.go:332-376 | For every script of attempts each stream is opened with the largest number accepted so far, and the buffer ends with what all results received before a cancellation make of it. |
| `FileJobs.CallKeeps` | bottle-agent/internal/lifecycle/file_jobs.go:51-81 | Each call advances the temporary file, and none but a rename that takes effect changes the job file. |
| `FileJobs.FlushFromAtomic` | bottle-agent/internal/lifecycle/file_jobs.go:51-81 | From any call on, the file becomes the complete new one exactly if every call before the rename is done and the rename takes effect; otherwise it stays. |
| `FileJobs.FlushAtomic` | bottle-agent/internal/lifecycle/file_jobs.go:51-81 | Wherever a flush stops, the file is the complete encoding of the map after the Put if the rename landed and the old one if not; it has landed if the flush returns, and not if it fails; no temporary file is left but by a process that dies. |
| `FileJobs.PutRefinesMap` | bottle-agent/internal/lifecycle/file_jobs.go:41-49 | A Put that returns replaced one entry in memory and for every later process; one that does not has done so for a later process exactly if its rename landed. |
| `FileJobs.ReloadIsFold` | bottle-agent/internal/lifecycle/file_jobs.go:19-81 | Through any Puts, crashes and power failures a reload finds exactly the map made, in order, by the Puts whose rename landed, and so it would after a power failure now; a living process agrees with it. |
| `FileJobs.FoldIsLastLanded` | bottle-agent/internal/lifecycle/file_jobs.go:41-49 | That map has an ID exactly if a Put for it landed, with the job of the last such Put. |
| `FileJobs.ReloadFindsLast` | bottle-agent/internal/lifecycle/file_jobs.go:19-81 | A reload yields for each ID the last Put whose rename completed. |
| `FileJobs.PutIsDurable` | bottle-agent/internal/lifecycle/file_jobs.go:19-49 | A Put that returned is what every later reload finds until another Put for the same ID, through any crashes. |
| `FileJobs.NothingInvented` | bottle-agent/internal/lifecycle/file_jobs.go:19-49 | What a reload finds for an ID is the last Put for it whose rename completed, and no Put for it has returned since. |
| `FileJobs.JobFile.Open` | bottle-agent/internal/lifecycle/file_jobs.go:19-32 | A new process starts with the jobs on file, none without one, and fails exactly for a torn one. |
| `FileJobs.JobFile.Put` | bottle-agent/internal/lifecycle/file_jobs.go:41-49 | The mutating Put has the outcome of the store function; a failed flush ends the process. |
| `FileJobs.JobFile.FlushFile` | bottle-agent/internal/lifecycle/file_jobs.go:51-81 | The ordered system calls have the outcome of the flush function, the deferred removal included. |
| `Provisioning.ConfirmedNeverAsks` | bottle-agent/internal/lifecycle/lifecycle.go:123-134 | A confirmed run never ends in needs_input, whatever is on file. |
| `Provisioning.Provisioner.ExistingConfigs` | bottle-agent/internal/lifecycle/lifecycle.go:124-129 | The protected paths that exist, in order. |
| `Provisioning.Provisioner.RunSteps` | bottle-agent/internal/lifecycle/lifecycle.go:140-161 | The step loop and health check have the outcome of the step function, whose every ending is told by counting calls. |
| `Provisioning.Provisioner.Run` | bottle-agent/internal/lifecycle/lifecycle.go:107-162 | A run over the real store and host has the outcome, store and trace of the workflow function that the endings and the results over many runs are proved about. |
| `ProvisioningEndings.PreflightTells` | bottle-agent/internal/lifecycle/lifecycle.go:164-184 | The preflight passes exactly a fit host, and its complaint is true of the host and the first that is. |
| `ProvisioningEndings.ChangedTells` | bottle-agent/internal/lifecycle/lifecycle.go:123-129 | A run finds exactly those of the two protected files that exist, in order. |
| `ProvisioningEndings.SucceedsIff` | bottle-agent/internal/lifecycle/lifecycle.go:107-162 | A job that had not succeeded ends Succeeded if and only if the host is fit, nothing has to be asked, and every call of the pending operations, of the Puts and of the health check is done. |
| `ProvisioningEndings.RunSucceeds` | bottle-agent/internal/lifecycle/lifecycle.go:140-161 | It then returns, and leaves on file, the job Succeeded with every checkpoint. |
| `ProvisioningEndings.RunFails` | bottle-agent/internal/lifecycle/lifecycle.go:135-158 | When the first refused call is an operation or the health check and its report goes through, the run returns, and leaves on file, the job Failed with that checkpoint as phase, that reason, and the checkpoints before it. |
| `ProvisioningEndings.RunReturns` | bottle-agent/internal/lifecycle/lifecycle.go:107-162 | A run that comes to its operations returns in no other way. |
| `ProvisioningEndings.StopsBefore` | bottle-agent/internal/lifecycle/lifecycle.go:118-134 | On an unfit host the job fails in the preflight with the first true complaint; where it has to ask it waits for input with the files found; neither touches the host. |
| `ProvisioningEndings.NothingToRun` | bottle-agent/internal/lifecycle/lifecycle.go:108-117 | A request without an ID is refused and one for a succeeded job answered with it, and nothing is done; a new job starts empty. |
| `ProvisioningRuns.PutMidway` | bottle-agent/internal/lifecycle/lifecycle.go:149-150 | A Put in mid-run returns with the checkpoints in hand on file, or ends the process, and then forgets what was ahead of the file exactly if its rename did not land. |
| `ProvisioningRuns.OperateMidway` | bottle-agent/internal/lifecycle/lifecycle.go:151-154 | An operation puts the job in hand exactly that checkpoint ahead of the file, and is forgotten if the process dies in it after it took effect. |
| `ProvisioningRuns.StepsOver` | bottle-agent/internal/lifecycle/lifecycle.go:145-161 | From any step on, the run ends with the effects accounted for by the checkpoints on file and by what the script says it forgets. |
| `ProvisioningRuns.RunJobOver` | bottle-agent/internal/lifecycle/lifecycle.go:107-162 | So does every run, leaving other jobs, their effects and earlier checkpoints alone. |
| `ProvisioningRuns.LedgerHolds` | bottle-agent/internal/lifecycle/lifecycle.go:107-162 | After any sequence of runs for any IDs the effects of every job are so accounted for. |
| `ProvisioningRuns.EffectsExactly` | bottle-agent/internal/lifecycle/lifecycle.go:107-162 | Over any runs an operation took effect exactly once for its checkpoint on file and once for every run that left it done and off file, which the script tells: a death in its own call after it took effect, or before the next Put landed. |
| `ProvisioningRuns.CleanIffNothingForgotten` | bottle-agent/internal/lifecycle/lifecycle.go:107-162 | The effects are one clean run as far as the prefix-closed checkpoints on file say if and only if no run left an operation done and off file. |
| `ProvisioningRuns.ForgottenCrashes` | bottle-agent/internal/lifecycle/lifecycle.go:135-155 | At most one operation is so forgotten for every crash of a run of that job. |
| `ProvisioningRuns.OncePlusCrashes` | bottle-agent/internal/lifecycle/lifecycle.go:135-155 | It follows that an operation takes effect at most 1 + crashes times. |
| `ProvisioningRuns.FourPlusCrashes` | bottle-agent/internal/lifecycle/lifecycle.go:135-155 | And all four together at most 4 + crashes times. |
| `ProvisioningRuns.ResumesLikeOneRun` | bottle-agent/internal/lifecycle/lifecycle.go:123-155 | It follows that without crashes the effects over all runs are exactly the prefix of backup, packages, configure, services that the prefix-closed checkpoints name. |
| `ProvisioningRuns.CheckpointsStay` | bottle-agent/internal/lifecycle/lifecycle.go:123-161 | The persisted checkpoints never shrink. |
| `ProvisioningRuns.SucceededIsFinal` | bottle-agent/internal/lifecycle/lifecycle.go:115-117 | A succeeded job's record never changes again and no operation takes effect for it. |
| `ProvisioningRuns.GoodRunSucceeds` | bottle-agent/internal/lifecycle/lifecycle.go:107-162 | With an ID, a passing preflight and no failure a run ends Succeeded, except NeedsInput exactly when the backup is still to come, a protected file exists and the request does not confirm. |
| `ProvisioningRuns.CrashesRepeat` | bottle-agent/internal/lifecycle/lifecycle.go:135-138 | The bounds are reached for every number: n runs killed as the backup completes and one undisturbed run end Succeeded with n + 1 backups and n + 4 effects after n crashes. |
| `Releases.JoinSimple` | bottle-agent/internal/host/host.go:243-259 | For an ordinary version name the target is that directory under releases and its base name is the version. |
| `Releases.SwitchAtomic` | bottle-agent/internal/host/host.go:269-288 | However a switch ends, the link is the old target or the new one, files and directories are untouched, the new target existed, and a switch that returns has switched. |
| `Releases.FailedSwitch` | bottle-agent/internal/host/host.go:275-287 | A switch that returns an error leaves the link on the new target if the release exists and what failed was the restart, and where it was otherwise. |
| `Releases.SwitchEnds` | bottle-agent/internal/host/host.go:269-288 | Exactly how a switch to an existing release ends, told from its four calls and a leftover temporary link. |
| `Releases.RestartFailureMoves` | bottle-agent/internal/host/host.go:279-286 | A script on which a switch ends with an error and the link on the new release. |
| `Releases.SwitchedGood` | bottle-agent/internal/host/host.go:269-288 | A switch to an existing release with nothing refused succeeds over any leftover temporary link. |
| `Releases.ActivatedIsActive` | bottle-agent/internal/host/host.go:254-288 | A release switched to under an ordinary name is the active release. |
| `Releases.StagedGood` | bottle-agent/internal/host/host.go:242-252 | Staging with nothing refused goes through. |
| `Releases.StagedTree` | bottle-agent/internal/host/host.go:242-252 | The files after a staging, for every script: its own file is untouched until it is opened, then cut short until the write takes effect, then whole; no other file and neither link changes, and a staging that returns has made the release directory and stored the payload. |
| `Releases.StagedEnds` | bottle-agent/internal/host/host.go:242-252 | Exactly how a staging ends, told from its three calls. |
| `Releases.OperateKeeps` | bottle-agent/internal/host/host.go:242-288 | One staging or switch, interrupted anywhere, keeps a valid link valid. |
| `Releases.LinkStaysValid` | bottle-agent/internal/host/host.go:242-288 | After any interrupted or complete stagings, activations and rollbacks a link that began unset or valid is unset or valid, and with ordinary names unset or an existing release directory. |
| `Releases.ReleaseHost.Stage` | bottle-agent/internal/host/host.go:242-252 | Makes the directory, then writes the payload, with the outcome of the staging function for every answer. |
| `Releases.ReleaseHost.SwitchTo` | bottle-agent/internal/host/host.go:269-288 | Stat, remove, symlink, rename and restart have the outcome of the switch function for every answer. |
| `Updating.UpdateResult` | bottle-agent/internal/lifecycle/lifecycle.go:208-252 | Succeeded means the link names the requested version, whose stored payload has the manifest's digest, after one backup and one passed health check; rolled_back means the link leads where the prior release's name leads; failures before staging leave the tree and one at staging the link; a failed activation or rollback has moved the link exactly if its restart failed; no other file is touched. |
| `Updating.InstallationResult` | bottle-agent/internal/lifecycle/lifecycle.go:230-251 | The same for the part from the backup on. |
| `Updating.ActivationResult` | bottle-agent/internal/lifecycle/lifecycle.go:238-251 | The same from the activation on. |
| `Updating.HealthResult` | bottle-agent/internal/lifecycle/lifecycle.go:241-251 | The same from the health check on, rollback included. |
| `Updating.RollbackResult` | bottle-agent/internal/lifecycle/lifecycle.go:242-247 | The same for the rollback. |
| `Updating.RollbackRestores` | bottle-agent/internal/lifecycle/lifecycle.go:241-247 | A rolled-back update restores the link if and only if there was an active release and its name leads back to it; it restores the release, link and payload, if and only if besides the update was to another version or fetched what was already stored. |
| `Updating.RollbackCases` | bottle-agent/internal/lifecycle/lifecycle.go:234-247 | The link to an ordinary prior release is restored; a payload stored for any release is as it was if and only if the update was to another version or fetched the same; a first update that is rolled back leaves the link on the releases directory. |
| `Updating.UpdateFiles` | bottle-agent/internal/lifecycle/lifecycle.go:208-252 | The stored files after any update, crashes included: as before if it does not get as far as staging, and otherwise what the staging stores. |
| `Updating.CutShortIff` | bottle-agent/internal/lifecycle/lifecycle.go:235-237 | A whole stored payload is cut short by an update if and only if the update is to that version, gets as far as staging, and opens the file without its write taking effect, all told before the run. |
| `Updating.FileAfter` | bottle-agent/internal/lifecycle/lifecycle.go:235-237 | The file of a release after any update: untouched unless the update opens it, then cut short or the payload fetched. |
| `Updating.PayloadAfterAll` | bottle-agent/internal/lifecycle/lifecycle.go:208-252 | A stored payload after any sequence of updates, crashes included, is what the last update that wrote it made of it, or what it was. |
| `Updating.WholeUnlessCutShort` | bottle-agent/internal/lifecycle/lifecycle.go:208-252 | After any sequence of updates a payload that was whole is cut short if and only if the last update that wrote it cut it short. |
| `Updating.FirstUpdateRollsBack` | bottle-agent/internal/lifecycle/lifecycle.go:234-247 | A first update on which only the health check fails: the job says that the prior release was restored, and the link is on the releases directory. |
| `Updating.ReupdateRollsBack` | bottle-agent/internal/lifecycle/lifecycle.go:234-247 | An update to the active version with another payload, on which only the health check fails: the job says that the prior release was restored and the link is as it was, but it leads to the new payload. |
| `Updating.PayloadAfter` | bottle-agent/internal/lifecycle/lifecycle.go:235-247 | After a rolled-back update the payload stored in a directory is as it was if and only if the update was to another or fetched the same. |
| `Updating.OtherReleaseKept` | bottle-agent/internal/lifecycle/lifecycle.go:208-252 | However an update to another version ends, crashes included, a stored release keeps its payload. |
| `Updating.RestageLeavesPartial` | bottle-agent/internal/lifecycle/lifecycle.go:235-237 | A script on which an update to the active version fails in the write of the staged payload: the link keeps naming a release whose payload is cut short. |
| `Updating.GoodUpdateSucceeds` | bottle-agent/internal/lifecycle/lifecycle.go:208-252 | A verified update with the right digest and nothing refused succeeds, whatever the tree looked like. |
| `Updating.Updater.Run` | bottle-agent/internal/lifecycle/lifecycle.go:208-252 | A run over the real store, host and releases has the outcome and the store of the update function that the results, the records and the endings are proved about. |
| `Updating.Updater.Install` | bottle-agent/internal/lifecycle/lifecycle.go:230-252 | Likewise for backup, stage and activate. |
| `Updating.Updater.Confirm` | bottle-agent/internal/lifecycle/lifecycle.go:241-252 | Likewise for the health check and the rollback. |
| `UpdateEndings.UpdateRecords` | bottle-agent/internal/lifecycle/lifecycle.go:208-257 | An update that returns has put the very job it returns, in memory and on file; the records of other jobs stay, however it ends. |
| `UpdateEndings.NothingToDo` | bottle-agent/internal/lifecycle/lifecycle.go:209-214 | A request is refused exactly when it is incomplete, and one whose ID is on file as succeeded is answered from there; nothing else is done. |
| `UpdateEndings.SecondRunIsNothing` | bottle-agent/internal/lifecycle/lifecycle.go:212-214 | A second request with the ID of an update that returned Succeeded returns that job and touches neither tree, trace nor file. |
| `UpdateEndings.UpdateEnding` | bottle-agent/internal/lifecycle/lifecycle.go:208-252 | The outcome of every update, by the number of the call that ends it. |
| `UpdateEndings.UpdateSucceedsIff` | bottle-agent/internal/lifecycle/lifecycle.go:208-252 | An update that had not succeeded returns Succeeded if and only if a configured verifier accepts the manifest, the digest is right, and every call is done but a removal of nothing. |
| `UpdateEndings.ReturnsWhat` | bottle-agent/internal/lifecycle/lifecycle.go:215-257 | Any other returned job is its own, Failed, with an error. |
| `UpdateEndings.EarlyFailures` | bottle-agent/internal/lifecycle/lifecycle.go:217-229 | A rejected manifest, a refused fetch, which is the eighth call, and a wrong digest are reported as such, with the reason. |
| `UpdateEndings.StagingFailures` | bottle-agent/internal/lifecycle/lifecycle.go:231-237 | A refused backup, the ninth call, and a refused staging, the three after it, are reported as such, with the reason. |
| `UpdateEndings.ActivationFails` | bottle-agent/internal/lifecycle/lifecycle.go:238-240 | The activation fails exactly when its switch does, with that error. |
| `UpdateEndings.RollsBackIff` | bottle-agent/internal/lifecycle/lifecycle.go:241-248 | After a passed switch a roll back is tried exactly when the health check is refused, and goes through exactly when the prior release is there and the switch back passes. |
| `UpdateEndings.FailsSomewhere` | bottle-agent/internal/lifecycle/lifecycle.go:216-237 | An update that returns without coming to its activation failed in one of these ways. |
| `Session.ReadOutcome` | bottle-agent/internal/controlplane/server.go:206-281 | A frame that is read yields exactly one reply with its own ID or opens its stream; any other changes nothing. |
| `Session.RepliesAreTrue` | bottle-agent/internal/controlplane/server.go:206-281 | A reply is OK exactly when the handler was called and succeeded or a configured tunnel was asked for, a resync exactly for a subscribe that met a history gap, and carries the handler's payload or error, or what was objected; a request reaches the handler once, with its own operation, confirmation, cursor and payload, if it is let through and not otherwise. |
| `Session.SessionHolds` | bottle-agent/internal/controlplane/server.go:180-281 | For every input: nothing is called, answered or forwarded before pairing and hello; every request read gets exactly one reply, with its ID and in request order, except an accepted subscribe; provision, update and survey reach the handler only confirmed, and each call is that of its request. |
| `Session.GreetedOnce` | bottle-agent/internal/controlplane/server.go:190-205 | For every input exactly one greeting is sent: not_paired exactly to an unpaired client, hello_ack exactly to a paired one whose first frame is the hello of this protocol, protocol_version otherwise; if the welcome cannot be written nothing is read, called, answered or forwarded. |
| `Session.OnlyTunnelEnds` | bottle-agent/internal/controlplane/server.go:206-228 | Reading ends before the input does if and only if a tunnel request was read. |
| `Session.Server.DispatchRequest` | bottle-agent/internal/controlplane/server.go:230-281 | The dispatch of one request has the outcome of the dispatch function. |
| `Session.Server.Handle` | bottle-agent/internal/controlplane/server.go:180-229 | The read loop takes the connection to the state of the session function that the greeting and the results are proved about. |
| `Agent.PublishedAreValid` | bottle-agent/internal/agent/agent.go:76-114 | Everything the handler publishes passes the client's validation. |
| `Agent.JobEventTells` | bottle-agent/internal/agent/agent.go:99-114 | The kind and severity of a provisioning event tell the outcome, and every outcome is told. |
| `Agent.JobEventDetails` | bottle-agent/internal/agent/agent.go:100-113 | Its payload is the job's ID, state, phase and message, or the refused request and why. |
| `Agent.SurveyEventTells` | bottle-agent/internal/agent/agent.go:80-91 | A survey event tells which command it was and whether it went through, with the new state or the error. |
| `Agent.SessionsNeverLeaveQuestions` | bottle-agent/internal/agent/agent.go:54-62 | No provision call that came through a session ends in needs_input, on any store. |
| `Agent.Handler.Provision` | bottle-agent/internal/agent/agent.go:54-62 | Runs the workflow and publishes its outcome exactly once; an undecodable payload does neither. |
| `Agent.Handler.Survey` | bottle-agent/internal/agent/agent.go:76-93 | The survey state follows exactly the commands that went through, each command is published once, and an unconfirmed request reaches nothing. |
| `Tunnel.StepKeeps` | bottle-tui/internal/tunnel/tunnel.go:85-165 | Every step of loop, relay, copies, emit and Close keeps the shutdown invariant. |
| `Tunnel.RelayOutcome` | bottle-tui/internal/tunnel/tunnel.go:103-127 | A live relay's step changes only itself, the event channel, the status, and the wait group exactly when it ends. |
| `Tunnel.ShutdownIsSafe` | bottle-tui/internal/tunnel/tunnel.go:85-165 | Under every interleaving the wait group counts the accept loop and the relays running or about to start, nothing is sent on the closed event channel, the counter is never misused, and a copying goroutine always finds room for its result. |
| `Tunnel.EveryStepIsSafe` | bottle-tui/internal/tunnel/tunnel.go:85-165 | At every step of every run a sender finds the event channel open, a count down finds something counted, a relay is added while the loop is counted, and a copy finds room for its result. |
| `Tunnel.ClosedIsFinal` | bottle-tui/internal/tunnel/tunnel.go:156-165 | Once Close has set the status it stays closed, no relay starts, and nothing is sent but Close's own event. |
| `Tunnel.StatusTells` | bottle-tui/internal/tunnel/tunnel.go:103-134 | The status says connected when a stream was opened, reconnecting when opening failed, one was lost or the listener stopped by itself, closed by Close, and nothing else sets it. |
| `Tunnel.SentThenCopies` | bottle-tui/internal/tunnel/tunnel.go:111-119 | A relay copies in both directions exactly when its stream was opened. |
| `Tunnel.SentUnlessFull` | bottle-tui/internal/tunnel/tunnel.go:133-136 | A status event is lost only when 32 wait. |
| `Tunnel.NoRelayAfterLoop` | bottle-tui/internal/tunnel/tunnel.go:85-100 | No relay starts once the accept loop is gone. |
| `Tunnel.Progress` | bottle-tui/internal/tunnel/tunnel.go:85-165 | Until Close is through, some goroutine can take a step that leaves less to do; it has to be the opener exactly when Close waits for relays that all wait for it. |
| `Tunnel.CloseCompletes` | bottle-tui/internal/tunnel/tunnel.go:156-165 | From every reachable state Close can run to its end if the pending calls of the opener return, and without them if none is pending. |
| `Tunnel.EveryStepWorks` | bottle-tui/internal/tunnel/tunnel.go:85-165 | Once the listener is closed every step that changes anything, by whomever, leaves less to do. |
| `Tunnel.CloseEndsIffNothingPending` | bottle-tui/internal/tunnel/tunnel.go:95-127 | In every reachable state Close can end without the opener if and only if no call of the opener is pending or about to be made. |
| `Tunnel.PendingBlocks` | bottle-tui/internal/tunnel/tunnel.go:103-109 | No run without the opener's return ends a pending call or closes the tunnel. |
| `Tunnel.StuckIffOpening` | bottle-tui/internal/tunnel/tunnel.go:156-165 | When only the opener can still move, Close has ended if and only if no relay waits for it. |
| `Tunnel.CloseCanHang` | bottle-tui/internal/tunnel/mtls.go:69-85 | A run from the start, with one connection whose opener does not return, to a state in which Close waits and nothing but the opener changes anything. |
| `Tunnel.CloseEnds` | bottle-tui/internal/tunnel/tunnel.go:156-165 | Once the listener is closed, Close ends under every schedule if the pending calls of the opener return: no schedule has more effective steps than there is work, one that has that many has closed the tunnel, and one that leaves nothing but the opener to move has closed it if and only if no relay waits for the opener. |

## Left out

- Sequence numbers are unbounded: fewer than 2^64 - 1 publishes in one bus lifetime; the agent does not restart within a run of the replication system.
- JSON is a lossless codec: an encoded size is an abstract function that may be undefined, numbers in payloads are opaque, and an agent payload that cannot be encoded does not occur.
- `Events.ValidationError` quotes an invalid severity between plain quotes, without escaping special characters as `%q` does; likewise the other error texts that use `%q`.
- The correlation ID of an event, which never crosses the wire, and the stale flag of a status snapshot, which nothing here sets.
- Wall-clock time: timestamps are given with each call, and the reconnect delay is part of the next attempt.
- Locks: a method that holds its lock throughout is one step; `Buffer.Add` validates and redacts before it locks, which touches no shared state. The buffer's and the client's methods run one at a time.
- Redaction.Sensitive: lower-casing covers the ASCII letters and the two other code points whose lower case is an ASCII letter, which is all that can decide a match.
- Go maps held by reference: payload maps, filters and a job's completed map are values, so aliasing of them, and the copying that prevents it, is not modelled; channels, the buffer's array and the rendered view are shared objects.
- Replication.Next closes a stream's two channels in one step, after which either may be read; the source closes one just before the other, which allows a receiver nothing more.
- Replication: a subscribe that reaches the Pi after its client has gone is one of the foreign subscribers.
- Session.Server.Handle: an error writing a reply or an event is ignored as in the source, except for the hello acknowledgement; a failed write before a tunnel ends the session as the tunnel would.
- Provisioning and updating assume one run at a time per job ID, and IDs that are not shared between the two workflows.
- ProvisioningRuns.RunAll: histories consist of provisioning runs, each in a process that has just read the job file; update runs do not occur between them. Updates are stated for one run, crashes included.
- Updating.UpdateResult: what the fetch would yield and what the verifier and the digest say are fixed for a run; the digest is an arbitrary function.
- Releases.Staged: a directory that cannot be made is taken to leave none of its parents new, and a write that fails to leave the file cut short even if only closing it failed.
- Releases: filesystem errors are answers of the script, except for a missing release and a temporary link whose name is taken; a path is a sequence of names, and names that lead through the current link itself are not resolved.
- FileJobs.ReloadIsFold: a power failure cuts short what was not synced; that a rename which returned is itself on disk is taken for granted, since the source does not sync the directory.
- Releases and updates: a crash is the end of the process; a power failure, which could also cut short a staged payload that was written but not synced, is not modelled there.
- FileJobs.JobFile.Open: a file that cannot be read for another reason than its absence is not distinguished from a torn one. The in-memory job store is left out: its file-backed counterpart does the same and more.
- Agent.Handler.Provision: probes are given for a whole run. Status, Update (a stub that only returns an error) and Events (a call of Subscribe) of the handler are not modelled.
- Tunnel.CloseEnds: a call of the opener is one step that may come late or never; closing the local connection and the stream as a relay leaves is taken to return.
- Tunnel: the local connections and streams themselves, the last error, the message texts, and the parameter checks of Start.
- TLS, certificates and pairing: whether a client is paired is given. The pairing store is not part of this model.
- The client's request and call plumbing, byte relaying, host probes, backups, downloads, saving to a file and listing sources of the buffer.
- The terminal user interface, both main programs but for the indexing of the last visible event, the wigle client, the provision control service and the deployment scripts.
