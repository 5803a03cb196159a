# fsnet: deltas, leases, messages and timers

fsnet keeps entities in a shared store whose only primitive is a versioned compare-exchange of one record. This project models three
cores of it and proves what they are for.

- **Structural deltas.** Recursive attribute values, their wire records (FSA1, FSA2, FSA3), the diff that picks the cheapest mix of
  replacement, nested edits and array splices, the replica that replays it under limits, client writes, and replication over a link.
- **The entity protocol.** Leases and fences, exactly-once messages, persistent timers and their discovery index, the delivery
  registry, handoff and destruction, as one step system: every storage job is cut at each `get` and `compare_exchange`, any number of
  hosts and workers interleave, any of them stops anywhere, messages are lost, repeated or late, and every clock reading is arbitrary.
- **Supporting machines.** The versioned in-memory store, identity allocation and creation claims, timer arithmetic near INT64_MAX, the
  one-worker storage executor, and the layered binary record with its skipping decoders.

## Reading the model

- A double is its 64-bit pattern. `Same` is the source's `==`: it identifies 0.0 and -0.0 and separates a NaN from itself.
- A `std::map` is a sequence of entries in strictly rising key order. Predicates named `Typed…` say what the C++ type already says.
- An exception or a failed call is a `Result` with a failure kind, or `None`.
- A SHA-256 ticket or digest is kept as the value that is hashed, which is the assumption that the hash does not collide.
- A host has at most one job per entity and a name of its own per incarnation, as `include/fsnet/entity_host.hpp` demands.
- Loops and objects of the source are methods and classes, each proved against a function of its inputs; the lemmas are about those
  functions. The protocol, the catalog and replication are functions from state to state, because what matters there is interleaving.

## Results that are not what one might expect

- Replication over a FIFO link does not always hold. A packet adds up to 403 bytes to a record, and the client refuses
  packets over one mebibyte, so an image within every record limit can still be refused; and a commit whose revision falls
  is sent as a snapshot that the replica rejects. `Replication.DrainsOn` states in both directions that these two cases are
  the only ones, and `Replication.BadCommitRefused` that either ends in the client's refusal; `ReplicationLimits` gives a
  run for each. The first needs a node configured for frames of more than a mebibyte: with the default `frame_bytes`
  (include/fsnet/node.hpp:22) `Node::notify` refuses such a packet before it is sent (src/node.cpp:510) and the server
  closes the connection. The second needs a host that publishes a lower revision under the same generation. The host's own
  check (src/entity_host.cpp:676-678) allows that only where the previous revision itself fell, which happens to a
  rebuildable entity that loses its cached image with its lease (src/entity_host.cpp:238) and is restored from its
  initial state (src/entity_host.cpp:595-598).
- Delivery can stall. A receiver that already has messages from as many sources as it is configured for channels refuses the
  first message of any further source (src/entity_host.cpp:498), and channels are never given back while the receiver
  lives. `Gaps.FirstAccepted` states that this is the only reason a source's first pending message is refused at
  acquisition, in both directions; `Stalls.StallsForGood` that the refusal then lasts for as long as the receiver lives,
  that the source sends nothing else and cannot be destroyed; `StallWitness.StallReached` that such a state is reachable
  for every limit a host accepts, in a run whose host has a request timeout and a lease its constructor accepts
  (src/entity_host.cpp:129-130) and reuses the lease it holds. Where there is a channel and the result can be committed, one
  undisturbed round completes the message: `Rounds.RoundCompletes`, for hosts that hold a long enough lease
  (src/entity_host.cpp:526-530) and for hosts that have to renew it.
- A confirmed timer entry can name the wrong place. A handoff that leaves the timers alone arms a pending entry with the
  record's own token, so a scan by the owner's own worker between arming and commit takes it for settled and confirms it
  with the old placement; after the commit the target's loader passes it over until the target accepts the entity or a
  round verifies hints (src/entity_timers.cpp:73, src/entity_timers.cpp:144). `Placements.PlacementLags` gives such a run
  from every reachable state that allows a handoff; `Placements.ConfirmedPlaced` states that nothing but a handoff since
  can be the cause. The due time is right even then.
- The length check on decoded delivery channels (`src/entity_delivery_state.cpp:80`) can never fail: `DeliveryCodec.ChannelShort`.
- The identity-collision exit of entity creation is unreachable: `Catalog.CreationsAgree`.

## Model

| member | source | states |
|---|---|---|
| `ValueCodec.EncodeValueExact` | src/attribute_wire.cpp:29-61 | the encoder succeeds exactly on values that meet the shape, depth, node and byte limits; it then appends their wire form and has spent exactly their nodes |
| `ValueCodec.WireSize` | src/attribute_wire.cpp:29-61 | the size of a value, counted without building anything, is the length of its wire form |
| `ValueDecoder.DecodeWire` | src/attribute_wire.cpp:62-107 | decoding the wire form of a value in front of any bytes returns the value and those bytes, at the same depth and node cost as encoding |
| `UpdateCodec.PatchExact` | src/attribute_wire.cpp:130-163 | a patch is encoded exactly when it fits, into exactly the counted bytes and nodes, with paths or without |
| `UpdateCodec.UpdateExact` | src/attribute_wire.cpp:164-174 | an update of any of the three record forms is encoded exactly when it meets every limit, and then into its wire form |
| `UpdateCodec.WireLengthExact` | src/attribute_wire.cpp:197-208 | `attribute_wire_size` is the encoded length, and fails exactly when encoding fails, with a length error whenever the shape is right |
| `UpdateDecoder.RoundTrip` | src/attribute_wire.cpp:197-266 | decoding an encoded update returns it, for every value tree and patch list, in FSA1, FSA2 and FSA3 |
| `DecodeSoundness.DecodeSound` | src/attribute_wire.cpp:209-266 | the converse: whatever the decoder accepts is a valid update within every limit of the encoder, has not a byte more than its form takes, and comes back unchanged when it is encoded again |
| `Patches.ApplyThrough` | src/attribute_wire.cpp:426-449 | patches that all go through one child of a container act on that child alone and leave the rest of the container |
| `Patches.EditMeans` | src/attribute_wire.cpp:434-447 | a map edit sets one key or erases one that is there, a splice replaces a stretch within the array, entry by entry; each fails exactly otherwise or past 256 entries |
| `DiffSoundness.DiffSound` | src/attribute_wire.cpp:313-361 | whichever form the diff chose, replaying it on anything equal to the old value gives a value equal to the new one, and every patch lies at or below the given path |
| `DiffSoundness.SpliceTurns` | src/attribute_wire.cpp:344-356 | the splice between common prefix and common suffix turns the old array into the new one |
| `DiffTotality.CostExact` | src/attribute_wire.cpp:308-310 | the cost of a patch is its exact size, and costing fails exactly when the patch outgrows a record of its own |
| `DiffTotality.DiffTotal` | src/attribute_wire.cpp:313-361 | inside a valid image no candidate patch exceeds the byte, node or depth limits, so the diff always exists |
| `DiffChoice.DiffCheapest` | src/attribute_wire.cpp:311-361 | at every subtree the diff costs no more than the replacement, than all edits of the children together if there are at most 256, and than the splice of an array; it is one of these three, and several patches or a splice only if strictly cheaper |
| `Splices.SpliceLeast` | src/attribute_wire.cpp:344-349 | of all splices that turn one array into the other, the one between longest prefix and remaining suffix is the cheapest, overlaps included |
| `DiffOptimality.DiffOptimal` | src/attribute_wire.cpp:311-361 | where no more than 256 places have changed, no script that keeps, replaces, splices or goes through the children as it likes at every subtree is cheaper than the diff |
| `DeltaTheorem.DeltaGood` | src/attribute_wire.cpp:267-380 | on valid images the delta exists, is encodable, brings the old roots to the new ones, and is never larger on the wire than plain replacement of the changed roots |
| `DeltaTheorem.DeltaSmallest` | src/attribute_wire.cpp:267-380 | the delta is a snapshot exactly when a root is lost, and otherwise the smallest of plain replacement, container form and field form, each if it can be encoded in at most 256 patches; a tie goes to the plainer one |
| `DeltaForms.FullRoots` | src/attribute_wire.cpp:271-273 | plain replacement sends exactly the new and changed roots |
| `DeltaForms.ContainerRoots` | src/attribute_wire.cpp:274-298 | the container form sends one splice for a changed array, one erasure or assignment for each lost or changed key of a changed map, other changed roots whole, and nothing else |
| `DeltaForms.FieldRoots` | src/attribute_wire.cpp:366-375 | the field form sends new roots whole, and of a changed root its diff unless that replaces the root |
| `DeltaForms.FieldFormExists` | src/attribute_wire.cpp:373 | the field form is given up exactly when its patches add up to more than 256 |
| `DeltaTheorem.PartEncodable` | src/attribute_wire.cpp:267-306 | an update that carries some whole roots of a valid image is within every limit |
| `DeltaApplication.MaterializeRoots` | src/attribute_wire.cpp:424-451 | replaying a patch list gives every root its own patches in order, and patches on other roots do not disturb it |
| `DeltaApplication.DeltaArrives` | src/attribute_wire.cpp:363-474 | the central law: for all valid images with a revision that does not fall, a replica holding the old image and given the delta ends with the new values, revision and charge, or refuses for its budget alone |
| `DeltaApplication.DeltaElsewhere` | src/attribute_wire.cpp:419-423 | no empty replica and no replica at another revision than the old image's takes a delta that is not a snapshot |
| `Overlays.MergeIsOverlay` | src/attribute_wire.cpp:177-195 | the two-cursor merge visits exactly the image that assigning the changed fields one by one would produce |
| `Overlays.ValidateExact` | src/attribute_wire.cpp:177-195 | at every point the merge has counted what encoding and charging the visited fields in order would have |
| `Overlays.OverlayCharge` | src/attribute_wire.cpp:177-195 | the merge returns the wire size plus native charge of the merged image computed from scratch, and fails exactly when that image cannot be encoded |
| `Charges.ImageCharge` | src/entity_schema.cpp:64-86 | the native charge of an image is 256 bytes for itself, for every node and for every struct or map that has a name, plus the bytes of all names and texts |
| `AttributeWire.WriteValue` | src/attribute_wire.cpp:29-61 | the recursive encoder with its loops computes the specified encoder |
| `AttributeWire.WriteFields` | src/attribute_wire.cpp:40-53 | the loop over fields spends the shared budget as specified and stops at the first failure |
| `AttributeWire.WriteItems` | src/attribute_wire.cpp:54-59 | the loop over items likewise |
| `AttributeWire.ReadFields` | src/attribute_wire.cpp:77-105 | the loop that consumes fields refuses a repeated name and leaves the unread bytes |
| `AttributeWire.CommonPrefix` | src/attribute_wire.cpp:344-349 | the loop finds the longest common prefix: all items before it are equal and the next ones differ |
| `AttributeWire.CommonSuffix` | src/attribute_wire.cpp:344-349 | the loop finds the longest common suffix |
| `AttributeWire.TotalCost` | src/attribute_wire.cpp:308-324 | the running sum of costs, failing where one cost fails |
| `AttributeWire.DiffFields` | src/attribute_wire.cpp:313-361 | the recursive search with its early exits returns the specified diff, or fails with it |
| `AttributeWire.FindMapEdits` | src/attribute_wire.cpp:333-342 | erasures first, then additions and nested edits, given up past 256 patches |
| `AttributeWire.FindStructEdits` | src/attribute_wire.cpp:326-331 | nested edits of a struct with the same keys |
| `AttributeWire.FindArrayEdits` | src/attribute_wire.cpp:344-356 | item edits of equal-length arrays against the one splice |
| `AttributeWire.ContainerForms` | src/attribute_wire.cpp:267-306 | the loop builds the full and the sparse form side by side |
| `AttributeWire.FieldForms` | src/attribute_wire.cpp:363-376 | the loop over roots gathers whole roots and edits, given up past 256 patches |
| `AttributeWire.AttributeDelta` | src/attribute_wire.cpp:363-380 | the whole of `attribute_delta` returns the specified delta, or fails with it |
| `AttributeWire.MeasureOverlay` | src/attribute_wire.cpp:177-195 | the loop with its two cursors returns the specified charge or failure |
| `Replicas.ReplayPatches` | src/attribute_wire.cpp:424-451 | the loop that replays patches on copies of the addressed roots; the result is in key order |
| `Replicas.Replica.Apply` | src/attribute_wire.cpp:416-474 | an encodable update is turned away exactly when it is a delta for another revision than the one held, or for an empty replica, or would take the replica back; whole roots are installed exactly when the resulting image can be encoded and is within the budget; a patched one gives the specified contents; success leaves the update's revision and the exact charge, anything else changes nothing; a carrier that somebody else holds keeps its values and revision; use counts stay right |
| `Replicas.Replica.Overwrite` | src/attribute_wire.cpp:466-471 | moving the prepared fields in one at a time gives the overlaid image |
| `Replicas.Replica.Retain` | include/fsnet/attribute_wire.hpp:53 | a snapshot is the current carrier with one more holder |
| `Replicas.Replica.Reset` | include/fsnet/attribute_wire.hpp:57 | the replica is empty again and a retained version is untouched |
| `Replicas.Replica.Copy` | include/fsnet/attribute_wire.hpp:39-40 | a copy shares the carrier and has equal contents |
| `Replicas.Replica.Become` | include/fsnet/attribute_wire.hpp:40 | copy assignment lets go of its own carrier, shares the other's, and changes no carrier's contents |
| `Sharing.SoundChange` | include/fsnet/attribute_wire.hpp:36-63 | whatever one replica does to its carrier under the copy-on-write rule, every use count is again the number of its replicas and readers, and no other replica and no reader sees a change |
| `Sharing.Pool.AddCopy` | include/fsnet/attribute_wire.hpp:39 | a copied replica shares the carrier; all counts stay right |
| `Sharing.Pool.Assign` | include/fsnet/attribute_wire.hpp:40 | so does an assigned one, and assigning a replica to itself changes nothing |
| `Sharing.Pool.ApplyTo` | src/attribute_wire.cpp:416-474 | applying to one of many replicas changes only a carrier nobody else holds, or moves the replica to a new one |
| `Sharing.Pool.Clear` | include/fsnet/attribute_wire.hpp:57 | resetting one of many replicas leaves every carrier's contents |
| `Sharing.Pool.Discard` | include/fsnet/attribute_wire.hpp:36-63 | so does the end of a replica's life |
| `Sharing.Pool.Keep` | include/fsnet/attribute_wire.hpp:53 | a reader retains exactly what the replica shows at that moment |
| `Sharing.Pool.LetGo` | include/fsnet/attribute_wire.hpp:53 | a reader that lets go leaves every carrier's contents |
| `Sharing.Pool.Interleave` | include/fsnet/attribute_wire.hpp:36-63 | over any sequence of creations, copies, assignments, updates, resets, ends, retentions and releases: every snapshot held before and not let go is the same version with the values it had, every snapshot held after is what it was when it was retained, and every replica is sound |
| `Schemas.SameCheck` | src/entity_schema.cpp:10-38 | equal values pass or fail schema validation together and spend the same budget |
| `Schemas.CheckExact` | src/entity_schema.cpp:10-38 | a value is valid exactly when it conforms to its definition (kind, range, text length, exact members, length or capacity, distinct items of a set, map keys), is at most eight levels deep and has no more nodes than are left, and it takes exactly its nodes |
| `Schemas.SameAdmitted` | src/entity_schema.cpp:109-119 | values equal root by root are admitted for the same caller together |
| `Schemas.EntityAttributes.Stage` | src/entity_schema.cpp:109-119 | staging succeeds exactly when the caller is current, there are no more roots than attributes, each is an attribute the caller's own side may write, and each value conforms; the mutation carries the values as submitted; the first root at fault decides the error |
| `Schemas.EntityAttributes.Publish` | src/entity_schema.cpp:120-138 | a stale mutation is refused and a failing one throws, both without a change; otherwise each submitted root equals its submitted value, every other root is untouched, the revision rises by one exactly when something changed, and the stamps still tell what each past revision looked like |
| `Schemas.EntityAttributes.Changes` | src/entity_schema.cpp:153-160 | the visible roots stamped since any past revision, laid over what was visible then, are what is visible now; a revision that has not been gets a snapshot |
| `Schemas.RecentCompletes` | src/entity_schema.cpp:153-160 | the law behind it, for any image whose unstamped roots have kept their values |
| `Staging.RestoredDelta` | src/attribute_wire.cpp:381-395 | with its explicit no-op roots restored, the write delta addresses exactly the submitted roots |
| `Staging.ProposalStages` | src/attribute_wire.cpp:401-415 | a patched proposal stages the mutation that staging the submitted values gives, or both are refused |
| `Staging.WriteDeltaStages` | src/attribute_wire.cpp:381-415 | if server and client agree on the submitted roots at one revision and the merged image is valid, staging the write delta equals staging the submitted values, no-op roots included |
| `ProposalMeaning.AppliedAt` | src/attribute_wire.cpp:419-474 | an applied delta gives every root it names the value it sends or its patches make of what was held, and leaves every other root |
| `ProposalMeaning.ProposalMeans` | src/attribute_wire.cpp:401-415 | a proposal is staged only for the server's revision, and then it submits exactly the roots it names, as sent or with its patches replayed on the server's values |
| `ProposalMeaning.WriteDeltaSmallest` | src/attribute_wire.cpp:381-400 | the write delta is the restored delta exactly when that can be encoded and is smaller than plain replacement |
| `Proposals.WriteUpdate` | src/attribute_wire.cpp:381-400 | the program computes the specified write delta, or fails with it |
| `Proposals.KnownRoots` | src/attribute_wire.cpp:385-388 | the loop collects exactly the confirmed values of submitted roots |
| `Proposals.RestoreRoots` | src/attribute_wire.cpp:390-393 | the loop restores exactly the unchanged submitted roots |
| `Proposals.PatchedRoots` | src/attribute_wire.cpp:406-408 | the loop adds the server's value for each patched root that was not sent whole |
| `Proposals.RefreshRoots` | src/attribute_wire.cpp:413 | the loop takes every root's value from the candidate image |
| `Proposals.StageUpdate` | src/attribute_wire.cpp:401-415 | the program stages the specified mutation or refuses, and leaves the server's attributes alone |
| `Packets.PacketTrip` | src/replication_wire.cpp:20-56 | a packet opens to what was sent exactly when it is no longer than a mebibyte, and its header adds at most 403 bytes |
| `Packets.FrameOpens` | src/replication_wire.cpp:27-56 | a framed body, update or revocation, is opened to its header and body exactly when the frame fits a mebibyte and the body is good |
| `Packets.PacketSound` | src/replication_wire.cpp:33-56 | every packet that is accepted is, byte for byte, a valid header around an encoded update, or around nothing if its status is not ok |
| `Packets.Remap` | src/replication_wire.cpp:57-61 | rewrites the subscription in place exactly where it is told to, or refuses and changes nothing |
| `Packets.RemapOpens` | src/replication_wire.cpp:57-61 | a forwarded packet opens to the same packet under the new subscription, whatever precedes it |
| `Replication.NothingMissed` | src/attribute_replication.cpp:245-249 | a delta that carries nothing means that nothing visible changed |
| `Replication.DrainsOn` | src/attribute_replication.cpp:228-256 | queueing the next delta keeps the invariant that folding the packets in flight over the client's replica gives the server's last image, if and only if the revision does not fall and the packet is not too long |
| `Replication.StartTracked` | src/attribute_replication.cpp:120-133 | a watch is accepted exactly when the visible image is within 512 KiB and within what other subscriptions have left of the image budget, and then the invariant holds |
| `Replication.BudgetOnly` | src/attribute_wire.cpp:419-474 | a budget changes the outcome of an update in one way only: refusal for size |
| `Replication.RunReplicates` | src/attribute_replication.cpp:228-256 | over every run of commits, skipped commits, deliveries and closings with no fallen revision or overlong packet, the client refuses nothing and the link drains to the server's image, with the owner's revision exact |
| `Replication.BadCommitRefused` | src/attribute_replication.cpp:228-256 | the other direction: in any intact subscription a commit sent with a lower revision or in an overlong packet ends with the client's refusal once the link is delivered |
| `Visibility.StartShows` | src/attribute_replication.cpp:58-73 | an accepted watch starts with exactly the readable roots of the image, and its first packet opens to them |
| `Visibility.NothingExact` | src/attribute_replication.cpp:245-247 | a delta carries nothing exactly when no root has changed and the revision has not fallen |
| `Visibility.SentExactly` | src/attribute_replication.cpp:243-254 | a commit is sent exactly when it shows something new or, to the owner, another revision; if it has to be and cannot, the subscription ends |
| `Visibility.RunShows` | src/attribute_replication.cpp:58-73 | over every run: no packet on the link names a root the subscriber may not read, and what it is to see is the latest commit with exactly its readable roots |
| `ReplicationLimits.FallenRevisionRefused` | src/attribute_replication.cpp:398-412 | for every revision: a run from an accepted watch in which the revision falls by one and the client refuses |
| `ReplicationLimits.FullRecordRefused` | src/replication_wire.cpp:27-56 | a run from an accepted watch in which sixteen texts are filled at the next revision, within every record limit, and the client refuses the packet, for any entity name |
| `Leases.InvStep` | src/entity_host.cpp:438-539 | every step of every host and worker keeps the lease invariant: a job level with its record started from exactly that record, is entitled to it, and holders of fences are on file |
| `Leases.InvRun` | src/entity_host.cpp:438-764 | so does every run |
| `Chains.CommitsChain` | src/entity_host.cpp:740-764 | over every run: whenever a commit changes the store, it is by the recorded owner at the recorded fence before the lease is over, its handler was given exactly the persisted snapshot, and every field of the new record is determined: the handler's result, released if the entity is given up; a handoff ticket is accepted only while it is the record's |
| `Chains.LeaseTaken` | src/entity_host.cpp:458-537 | over every run: a lease is taken only from nobody, from oneself or after expiry, by a host the placement allows, and changes nothing but owner, expiry and the fence, which rises by one |
| `Chains.FenceOneOwner` | src/entity_host.cpp:528-537 | over every run and any continuation: fences never fall and no fence has two owners |
| `Chains.OwnerPlaced` | src/entity_host.cpp:458-461 | in every reachable record a non-empty owner matches a non-empty placement |
| `Chains.TombstoneStays` | src/entity_host.cpp:750-752 | a destroyed record is never changed again, by acquisition, commit, release, transfer or repeated creation |
| `Chains.TicketOutdated` | src/entity_host.cpp:462-464 | once another handoff has replaced a ticket, it is never current again |
| `Outcomes.InvStep` | src/entity_host.cpp:481-515 | every step keeps firings due, decided messages settled, handoffs to other nodes and all timers valid |
| `Outcomes.MessageDecided` | src/entity_host.cpp:641-643 | over every run: whenever an execution is new, its result is a success, a refusal or not found, within the payload limit, and acknowledged; anything but a success leaves state, timers, counters and outbox of the replaced record, and the new cursor |
| `Outcomes.FiresWhenDue` | src/entity_host.cpp:481-486 | over every run: whenever a firing is new, it was committed in time by the owner for an occurrence that is in the replaced record and was due when it was loaded |
| `Handlers.HandlersAct` | src/entity_host.cpp:895-911 | whatever all other hosts and workers do in the meantime, a handler's work is what its own steps have made of it |
| `Handlers.HandlerCounts` | src/entity_host.cpp:640-720 | from every reachable state: what is prepared has the state last computed, every timer as last scheduled or cancelled, the fired one advanced or gone, and no message that was not staged; a message that was no success counts for nothing |
| `Handlers.SendAppends` | src/entity_host.cpp:1205-1241 | an undisturbed send appends the message under the next number of its channel and registers the source |
| `Handlers.ForgetRemoves` | src/entity_host.cpp:1252-1258 | forgetting removes a message that is done and no other |
| `Duties.CallCompletes` | src/entity_host.cpp:438-764 | from every reachable state a host that may work on an entity completes a call: the record is under the lease held or granted, initialized and with an epoch |
| `Duties.FireCompletes` | src/entity_host.cpp:481-486 | from every reachable state a timer that is in the record and due is fired in one undisturbed job: the firing is on record, the timer advanced from when the callback was done or gone, the others untouched, and the index names the new earliest due time |
| `Duties.DeactivateCompletes` | src/entity_host.cpp:740-752 | a deactivation leaves the record as it was, with nobody owning it |
| `Duties.DestroyCompletes` | src/entity_host.cpp:750-752 | an entity with nothing left to deliver becomes a tombstone |
| `Duties.CommitReleases` | src/entity_host.cpp:740 | over every run: a committed handoff or deactivation, and a release without a hook, leave no owner and no lease |
| `Duties.ReleasedFree` | src/entity_host.cpp:458-472 | a released record can be loaded at once by exactly the hosts its placement allows |
| `Duties.HandoffCompletes` | src/entity_transfer.cpp:71-117 | from every reachable state: handoff and acceptance, each undisturbed, move the entity with state, timers and messages to a host of the target, and the host it came from is shut out |
| `Workers.MatchesNode` | include/fsnet/entity_record.hpp:48-50 | an incarnation matches exactly one node name without a slash: the part before its first slash |
| `Workers.HexTextTells` | src/entity_timer_index.cpp:13 | the text of an identity tells it |
| `Workers.CreatedServes` | src/entity_catalog.cpp:68-82 | a free identity gets a record with the given state and placement and nothing else, which any host the placement allows can call at once; a taken one keeps its record |
| `Workers.ScanSettles` | src/entity_timers.cpp:107-131 | an undisturbed scan removes the entry of an entity without timers, leaves one whose producer may still commit, and otherwise makes it name the true earliest due time; other entries stay |
| `Workers.RetireSettles` | src/entity_delivery.cpp:64-81 | an undisturbed retirement takes a tombstone out of the registry, and no other source |
| `Bounds.InvStep` | src/entity_host.cpp:723-726 | every step of hosts that keep to limits keeps every record within them |
| `Bounds.RecordsBounded` | src/entity_host.cpp:723-726 | over every run: no record has more messages or channels than the hosts are configured for |
| `Firings.InvStep` | src/entity_host.cpp:481-486 | every step keeps what makes occurrences unique: generations never repeat among committed states and due times only rise |
| `Firings.FiresOnce` | src/entity_host.cpp:664-671 | over every run: a committed firing of (key, generation, due) is the first one |
| `Firings.NeverAgain` | src/entity_host.cpp:664-671 | over every run and every continuation: an occurrence that has fired is never committed again |
| `Firings.FiredIsOver` | src/entity_host.cpp:664-671 | what has fired is gone from the timers, or is there with a later due time or another generation |
| `TimerIndexes.InvStep` | src/entity_timer_index.cpp:41-52 | every step of arming, committing and scanning keeps the discovery invariant |
| `TimerIndexes.TimersDiscoverable` | src/entity_timers.cpp:107-131 | in every reachable store a live entity with timers has a discovery entry that is pending or names its true earliest due time |
| `Placements.InvStep` | src/entity_timers.cpp:107-131 | every step keeps confirmed entries at the place of the record they were made from |
| `Placements.ConfirmedPlaced` | src/entity_timers.cpp:70-80 | in every reachable store a confirmed entry names the entity's placement, or a handoff has replaced the record it was made from or a later one |
| `Placements.PlacementLags` | src/entity_timers.cpp:119-128 | from every reachable state in which an entity with timers can be handed off: a run in which a scan between arming and commit leaves a confirmed entry at the old place |
| `Placements.StaleNeverArms` | src/entity_timer_index.cpp:44-46 | a producer that waits to arm after its record has moved on never does, in any continuation |
| `Deliveries.InvStep` | src/entity_host.cpp:487-515 | every step keeps the message invariant: exactly the messages up to each cursor were executed, in order, and every acknowledgement is true or superseded |
| `Deliveries.ReplayAck` | src/entity_host.cpp:492-495 | a repeated message is answered with its recorded result, or with one that a later execution has made irrelevant |
| `Deliveries.FirstPassed` | src/entity_delivery.cpp:82 | only the first pending message is sent, so everything before it in its channel is done |
| `Deliveries.CursorRises` | src/entity_host.cpp:709-717 | over every run: a committed execution is of a message never executed before, it is the next of its channel, and it moves that cursor by one and no other |
| `Deliveries.OthersKeepCursors` | src/entity_host.cpp:740-752 | every other commit leaves the inbox alone, or clears it with the entity for good |
| `Deliveries.ExecutedOnce` | src/entity_host.cpp:709-764 | over every run: what was executed stays as it was executed |
| `Deliveries.ResultsAgree` | src/entity_delivery.cpp:42-54 | over every run: a result recorded done at the source is the one the receiver committed for that very body, unless the receiver is a tombstone |
| `Registries.InvStep` | src/entity_host.cpp:1205-1241 | every step, registrations and retirements racing, keeps the source of accepted work in the registry |
| `Registries.PendingRegistered` | src/entity_host.cpp:1213-1222 | in every reachable store the source of a message that is not done is registered |
| `Registries.WriteRetiredStep` | src/entity_delivery.cpp:64-81 | retiring a tombstone from a registry read earlier hides nothing |
| `Registries.PendingStays` | src/entity_host.cpp:1252-1258 | one step never removes a message that is not done |
| `Registries.PendingLeavesDone` | src/entity_host.cpp:718-721 | over every run: a pending message that is gone was done in some state on the way |
| `Debts.InvStep` | src/entity_host.cpp:499-506 | every step keeps a checked message pending at its source, executed, or addressed to a tombstone |
| `Debts.ExecutedPending` | src/entity_host.cpp:499-506 | over every run: whenever an execution is new, its source still holds that very message undone |
| `Gaps.InvStep` | src/entity_host.cpp:1228-1241 | every step keeps channels without gaps: each counted number is in the outbox or was settled by the receiver |
| `Gaps.FirstAccepted` | src/entity_host.cpp:487-507 | in every reachable state the first pending message to a live receiver is the next it expects or the last it executed, and it is accepted if and only if its source has a channel or one is free; it replays exactly when it was executed |
| `Stalls.InvStep` | src/entity_host.cpp:497-498 | every step of hosts that keep to a limit keeps the free channel each job found and the first pending message of each source |
| `Stalls.StallsForGood` | src/entity_host.cpp:498 | once a source waits before a receiver without a channel, then in every continuation in which the receiver lives the message is never executed or acknowledged, every host refuses it, the source sends nothing else and cannot be destroyed |
| `StallWitness.StallReached` | src/entity_host.cpp:127-130 | for every number of channels a host accepts there is a run that ends in such a state; all jobs in it keep to one set of accepted settings, are done within the request timeout and are on non-zero identities |
| `Rounds.RoundCompletes` | src/entity_delivery.cpp:42-90 | from every reachable state, when both hosts may work, whether or not they hold a long enough lease already, and the receiver has a channel and commits the result within the request timeout, one undisturbed round (the message is sent, then steps of the receiver's host, then of the source's, each with its own settings) makes the first pending message done with the outcome the receiver committed, executing it only if that had not happened; a tombstone answers that it is gone |
| `Rounds.ReceiveRound` | src/entity_host.cpp:487-764 | with a channel, a result that decides, a state the host publishes and work done within the request timeout, an undisturbed receipt commits exactly the cursor and acknowledges with the handler's result; a lease that outlasts the request is left as it is, any other is renewed at the next fence |
| `Rounds.AckRound` | src/entity_host.cpp:508-515 | with a state the host publishes and work done within the request timeout, an undisturbed acknowledgement makes exactly one message done, under the lease held or a renewed one |
| `Rounds.ReplayRound` | src/entity_host.cpp:492-495 | a message executed before is acknowledged again with the recorded result and executes nothing; under a lease that outlasts the request nothing is written at all |
| `Database.Memory.Transact` | src/database.cpp:40-59 | all mutations or none; success exactly when the batch is valid, every expectation holds and versions are left; each key becomes what its mutation says, with a version above all before |
| `Database.Memory.CompareExchange` | src/database.cpp:34-36 | succeeds exactly when the version is the expected one, and then replaces that one record under a fresh version |
| `Database.Memory.Erase` | src/database.cpp:37-39 | removes the record exactly when it is there with the expected version |
| `Catalog.InvStep` | src/entity_catalog.cpp:33-82 | every step of racing allocators and creators keeps blocks apart, claims one to one with identities, and records made from claims |
| `Catalog.IdentitiesDistinct` | src/entity_catalog.cpp:33-55 | over every run: an identity handed out was never handed out before, is not zero and fits 64 bits |
| `Catalog.CreationsAgree` | src/entity_catalog.cpp:56-82 | over every run: successful creations agree on one identity per key and never share one across keys; the collision exit is not taken |
| `Catalog.NothingSkipped` | src/entity_catalog.cpp:38-53 | over every run without a crash: each identity up to the mark was handed out or lies in an allocator's block |
| `Catalog.Reserves` | src/entity_catalog.cpp:38-53 | an undisturbed reservation gives exactly the identities right above the mark, a whole block or as many as are left |
| `Catalog.CreationCompletes` | src/entity_catalog.cpp:56-82 | in every reachable state an undisturbed creation ends: with the claimed identity for the same request, with a conflict for another, else with a new identity; claim and record are in place and nothing else changed |
| `TimerState.TimerCell.Advance` | src/entity_timer_state.cpp:32-40 | throws exactly on an invalid or early timer; otherwise the specified advance, with every 64-bit intermediate in range: later, one callback less if it counts, nothing else changed, and false on its last callback |
| `TimerState.AdvanceForward` | src/entity_timer_state.cpp:32-40 | an advance moves the due time strictly forward, keeps the timer valid, and lands after now unless it is catching up |
| `TimerState.CoalesceLeast` | src/entity_timer_state.cpp:36-39 | a coalescing fixed-rate timer lands on the least due + k * interval after now |
| `TimerState.CatchUpMeetsCoalesce` | src/entity_timer_state.cpp:36-39 | an unlimited catch-up timer reaches that same due time in exactly (now - due) / interval + 1 firings, all earlier ones due by now |
| `TimerState.AdvanceFails` | src/entity_timer_state.cpp:34-38 | false is returned for an exhausted timer, and otherwise exactly when the due time cannot be represented: for a coalescing timer when no due + k * interval lies between now and INT64_MAX, for a catching-up one when due + interval is beyond it, for a fixed delay when now + interval is |
| `TimerState.CountedEnds` | src/entity_timer_state.cpp:34 | over any firings: a counted timer has one callback less after each and none after its last, an unlimited one never counts, and key, method, payload, generation and interval stay |
| `TimerState.NextTimer` | src/entity_timer_state.cpp:41 | the loop finds the earliest due time |
| `TimerState.FindInsert` | src/entity_host.cpp:906 | scheduling sets one key and leaves the others |
| `TimerState.FindRemove` | src/entity_host.cpp:910 | cancelling removes one key and leaves the others |
| `Executors.Executor.Submit` | src/async_database.cpp:64-71 | accepted exactly when running and within both limits; the job is queued last |
| `Executors.Executor.Take` | src/async_database.cpp:28-34 | the worker takes the oldest queued job |
| `Executors.Executor.Execute` | src/async_database.cpp:35-37 | the operation of the job in hand runs, and had not run before |
| `Executors.Executor.Finish` | src/async_database.cpp:38 | the job that ran is handed back last |
| `Executors.Executor.Exit` | src/async_database.cpp:31-32 | the worker leaves exactly when stopped with an empty queue |
| `Executors.Executor.Stop` | src/async_database.cpp:42-53 | draining leaves the queue to the worker; cancelling takes all of it |
| `Executors.Executor.Join` | src/async_database.cpp:54-58 | cancelled jobs follow the last one that ran, every accepted job has been handed back, and without a cancellation every operation has run |
| `Executors.Executor.PollOne` | src/async_database.cpp:79-88 | delivers the completion that is next in admission order |
| `Executors.Executor.Interleave` | src/async_database.cpp:24-90 | over any interleaving of owner and worker: operations run at most once and in admission order, completions are delivered once and in order, counts and bytes are the sums over the queues and stay within limits |
| `TimerCodec.RoundTrip` | src/entity_timer_state.cpp:53-67 | decoding encoded timers returns them |
| `TimerCodec.WireSizeExact` | src/entity_timer_state.cpp:42-59 | the counted size is the encoded length, and counting fails exactly when encoding fails |
| `TimerCodec.CountSize` | src/entity_timer_state.cpp:42-52 | the counting loop |
| `TimerCodec.WriteEntries` | src/entity_timer_state.cpp:56 | the loop appends all timers, or fails at an invalid one |
| `TimerCodec.ReadEntries` | src/entity_timer_state.cpp:64 | the loop consumes the announced timers and refuses a repeated key |
| `DeliveryCodec.RoundTrip` | src/entity_delivery_state.cpp:66-86 | decoding an encoded delivery state returns it |
| `DeliveryCodec.ChannelShort` | src/entity_delivery_state.cpp:42-46 | a channel key has at most 394 bytes |
| `DeliveryCodec.WriteSent` | src/entity_delivery_state.cpp:68-69 | the loop appends all counters, or fails at an invalid channel or a zero |
| `DeliveryCodec.WriteInbox` | src/entity_delivery_state.cpp:70 | the loop appends all cursors, or fails at an invalid one |
| `DeliveryCodec.WriteOutbox` | src/entity_delivery_state.cpp:71-72 | the loop appends all messages, or fails at an invalid one or a repeated ticket |
| `DeliveryCodec.ReadSent` | src/entity_delivery_state.cpp:79-80 | the loop consumes the announced counters |
| `DeliveryCodec.ReadInbox` | src/entity_delivery_state.cpp:81-82 | the loop consumes the announced cursors |
| `DeliveryCodec.ReadOutbox` | src/entity_delivery_state.cpp:83-84 | the loop consumes the announced messages and refuses a repeated ticket |
| `RecordCodec.RoundTrip` | include/fsnet/entity_record.hpp:69-125 | decoding an encoded entity record returns it through header, receipts, delivery state and timers |
| `RecordCodec.ViewAgrees` | include/fsnet/entity_record.hpp:87-125 | for every input the owning decoder accepts exactly what the view decoder accepts and whose snapshot parts decode, and then both agree on every header field, the snapshot and the timers |
| `RecordCodec.SnapshotTrip` | include/fsnet/entity_snapshot.hpp:55-84 | decoding an encoded snapshot returns it, in each of its three versions |
| `RecordCodec.TimersAgree` | include/fsnet/entity_snapshot.hpp:42-93 | for every input the full decoder accepts exactly what is framed and whose parts decode, and then the skipping decoder returns the same timers |
| `RecordCodec.SkipReceipts` | include/fsnet/entity_snapshot.hpp:48-49 | skipping four blobs a receipt ends where reading the receipts ends and fails where that fails |
| `RecordCodec.WriteReceipts` | include/fsnet/entity_snapshot.hpp:61-65 | the loop appends all receipts |
| `RecordCodec.ReadReceipts` | include/fsnet/entity_snapshot.hpp:75-78 | the loop consumes the announced receipts |
| `RecordCodec.AdvanceOver` | include/fsnet/entity_snapshot.hpp:87-89 | the loop advances a view over blobs |
| `CodecSoundness.TimersSound` | src/entity_timer_state.cpp:60-67 | the converse of the round trip: timers that are accepted are valid, in key order, and exactly as long as the bytes they were read from |
| `CodecSoundness.DeliverySound` | src/entity_delivery_state.cpp:75-86 | likewise for a delivery state |
| `CodecSoundness.SnapshotSound` | include/fsnet/entity_snapshot.hpp:69-84 | a snapshot that is accepted is valid in all its parts and is written again in no more bytes, from which it comes back |
| `CodecSoundness.RecordSound` | include/fsnet/entity_record.hpp:87-125 | likewise for a whole entity record |

## Left out

- Sockets, TLS, signatures, routing and endpoint choice: the network is a growing set of messages, or a FIFO link of packets.
- Lua and script handlers: a handler is any sequence of state changes, sends, forgets and timer edits.
- SQLite, PostgreSQL and file storage: the store is `Memory::transact` and the abstract records under the protocol.
- The client gateway, the C interface, cluster membership, metrics, callback lifetimes and memory exhaustion.
- Liveness under wall-clock time: clock readings are arbitrary. Of the two expiry tests of a commit only the second, right before the compare-exchange, is modelled; the first only stops a job earlier.
- The timer scanner's test of placement and lease before it looks at the timers (src/entity_timers.cpp:116): dropped, so that any worker may confirm or erase an entry at any time.
- Bounded retry loops of the protocol: a worker may give up after any attempt, so every bound is covered and none is modelled.
- Request receipts and replay by request id in the protocol: they are modelled in the record format only.
- Rebuildable entities, owner connections, caller identity and access policies in the protocol: only durable entities without an owner binding.
- Entity types in index and registry keys: identities are unique without them.
- Envelope, acknowledgement, registry and timer-event byte formats: the protocol carries their values; they would add easy codecs.
- In-memory bookkeeping of hosts and workers (slots, queues, watches, schedules, transfer operations): it decides when steps happen, and every order of steps is allowed.
- Restoring attributes from persistent values (src/entity_schema.cpp:167-188): attributes start from their initial values.
- The protocol, the catalog and replication are modelled on values and not as objects updated in place: the store, the mark and the link are fields of one state, and aliasing between worker objects is not captured.
- Protocol.JoinLate: the registration whose job has ended is one step, where the source reads and then writes.
- Replication.RunReplicates: one subscription; what others leave of the image budget is an input, and presence events and lease renewal are not modelled.
- Byte budgets of hosts (state, receipts, timers, delivery state and resident bytes): whether they have room is an input of every preparation (`Limits.room`), so they can refuse any job; when they do is not modelled.
- Gaps.FirstAccepted: the limits on configured channels and messages are modelled, the byte budgets above are not.
- Rounds.RoundCompletes: a round that no byte budget, deadline or other host interrupts.
- Visibility.RunShows: which roots a subscriber may read is an input; how it follows from access, visibility and ownership is not modelled.
- Shards of the timer index: the hash that picks one is modelled, but no property depends on its value.
- StallWitness.StallReached: the limit on registered sources (src/entity_host.cpp:1219) is not modelled, so the run is one of hosts configured for at least `channels` + 1 of them; byte budgets are taken to have room.
- Sharing.Pool.Interleave: moving a replica is not modelled; it is a copy followed by a reset without the counting.
- Staging.WriteDeltaStages: which failure is reported when both ways refuse is not compared.
