# Network explorer verification

A model of the data engine behind the decoder server's network explorer, with proofs of what it promises.

- **Live association model** (`Counters`, `LiveModel`, `CountingProofs`, `LiveProofs`, `LiveCounted`, `LiveLists`,
  `LiveLines`, `LivePointers`, `LiveCalls`, `LiveStreams`, `LiveBounds`, `LiveLossless`, `NetworkProofs`, `LiveRuns`,
  `AssocModel`): decoder lines become calls, and counters on radios, talkgroups, networks, keys and edges are kept up
  to date through re-classification, folding of twins, network merges and roll-off. The step functions say what each
  operation does; the class runs the program's loops and is proved to do exactly that; the main theorem says that the
  counters are a recount of the call history after every run.
- **Network identity** (`Hysteresis`): how a stream's identity follows what its lines report.
- **Merging of data sets** (`Datasets`, `NetMerges`, `MergeInto`, `MergedMarks`, `MergedCalls`, `MergedEntities`,
  `DatasetMerge`, `Provenance`, `ExportMerge`, `ExportCounts`, `CallLists`, `Tracks`, `ApplyMerges`): conservation of
  counters, no instant counted twice and none lost, rules that form a partition, bounded call lists, position tracks.
- **Printers and parsers** (`Json`, `JsonSpacing`, `JsonEscapes`, `Keyring`, `KeyForms`, `LogLines`, `Replay`,
  `RecordedFiles`, `LiveReplay`): the nested JSON of the keys file and the flat lines of a recording are read back to
  what was written; a replay reaches the live state.
- **Call audio** (`AudioStore`, `AudioFiles`, `CallAudio`): the store's accounts and its eviction rule, and the
  agreement of calls and files.
- **Streaming demodulators** (`Demod`, `Filters`, `Detection`, `FmDemod`): blocks against one call on the whole stream.
- **In-browser algorithms** (`Fft`, `Communities`, `Crc`, `Zip`).

`Basics`, `Ordered`, `Maps`, `StableSorts` and `ComplexNumbers` hold what several of these need.
`dafny verify dfyconfig.toml` checks the whole project.

Findings, where the code does not do what its comments say, each with its exact condition:

- Reports of a merge go by file name: with two files of one name a file in the result, or a skipped one, can be
  reported as replaced (`Provenance.ReportRightIff`, `Provenance.ReportStaysRight`, `Provenance.SameNameMisleads`,
  `Provenance.SkippedMisleads`).
- Where two receivers heard one call, folding it takes the second one's emergency, encrypted flag and key back from
  the counters, also when the first one's lacked them and now lists them (`MergedMarks.MarksFallShort`,
  `MergedMarks.EmergencyForgotten`).
- The audio store looks at ages only when the cap is passed, and then stops at the first young entry, while appending
  does not move an entry back: an old finished file can outlive the age limit (`AudioStore.AgeLimitAfterSamples`,
  `AudioStore.AgeLimitMissed`).
- Opening a file whose name the index already lists breaks the store's accounts (`AudioStore.CallAudioStore.OpenFile`,
  `AudioStore.AccountsBroken`), and creating a call's file under the name of a finished one the agreement of calls and
  files (`CallAudio.CallRecorder.StartFile`, `CallAudio.AgreementBroken`).
- A recording decoded with a key is deleted when the twin its call was folded into ends without having been decoded
  with one itself, before the fold or after it (`CallAudio.AdoptedAudioKept`, `CallAudio.RecordingLost`).
- The wideband demodulator's decimation restarts with every block (`FmDemod.SampledAlikeIffAligned`,
  `FmDemod.OffGridOutputsDiffer`).
- The zip writer's count field holds 16 bits (`Zip.PlainRoundTrip`, `Zip.TooManyFiles`).

## Model

| member | source | states |
|---|---|---|
| LiveRuns.CountersAreRecounts | src/assoc_model.hpp:323-533 | After any run of begin, tune, line, end, remove, keep and clear, exactly those calls ever listed are counted that have both ends known or ended as voice for a target without a source; and in every family where no limit was hit each radio, talkgroup, edge, peer, network, key, emergency and encrypted counter equals a recount of those calls, each counted once; radio and talkgroup edges agree from both ends, peers are symmetric, and every network a call, radio or talkgroup names exists |
| LiveRuns.StepOk | src/assoc_model.hpp:161-254 | Each single operation keeps every family's counters equal to their recount |
| LiveCounted.RunSettled | src/assoc_model.hpp:515-531 | In every reachable state a call is marked as counted if and only if it is due: both ends known, or ended as voice, not data, for a target without a source |
| LiveLists.ExpireCloses | src/assoc_model.hpp:2374-2384 | Of the active calls exactly those gone quiet end, with nothing else changed but that they may be counted; exactly the entries of the others are kept |
| LiveLists.CloseOfEnds | src/assoc_model.hpp:2465-2472 | Exactly the session's calls end, and no other call changes |
| LiveLists.AdoptIs | src/assoc_model.hpp:2226-2265 | The duplicate is off the list, its twin is one stream richer, and whatever pointed to the duplicate points to the twin |
| LiveLists.OpenIs | src/assoc_model.hpp:2278-2306 | The new call is the newest and its slot's latest; no call with the keep flag is lost; a list with no more than the allowed calls without it still has no more |
| CountingProofs.CountCallKeeps | src/assoc_model.hpp:2124-2153 | Counting a call raises exactly the counters it contributes to, and leaves all others |
| CountingProofs.SetPrivateKeeps | src/assoc_model.hpp:2191-2209 | Turning a counted group call into a unit-to-unit call moves its association: what the group counters lose the peer counters gain, and a talkgroup left without any goes |
| CountingProofs.RefineKeeps | src/assoc_model.hpp:2158-2187 | A key named after the call was counted is counted once, on the call's network, talkgroup and radio |
| CountingProofs.EndCallKeeps | src/assoc_model.hpp:2367-2373 | Closing a counted group call adds it, once, to its talkgroup's emergency and encrypted counts |
| LiveProofs.CloseFollows | src/assoc_model.hpp:2343-2373 | A closing voice call without a source is counted for its target; counters stay recounts, no other call changes |
| LiveProofs.AdoptKeeps | src/assoc_model.hpp:2226-2265 | Folding a duplicate heard on another stream into its twin keeps every counter a recount: the duplicate, not yet counted, leaves the list, and its key is counted for the twin |
| LiveProofs.RollOffKeeps | src/assoc_model.hpp:2278-2306 | The call that rolls off a full list stays counted |
| NetworkProofs.MergeBalances | src/assoc_model.hpp:2037-2056 | Folding one network into another moves its counts, and relabels every call, radio, talkgroup and stream that named it, so that the recount moves along |
| NetworkProofs.PrunedOk | src/assoc_model.hpp:2419-2463 | Dropping the networks a stopping stream leaves without a trace, and what was known only through them, touches no counted call |
| AssocModels.AssocModel.BeginStream | src/assoc_model.hpp:161-178 | Updates the model in place to exactly the begin step's state, counters still exact |
| AssocModels.AssocModel.RetuneStream | src/assoc_model.hpp:183-204 | Updates the model in place to the retune step's state; nothing happens for an unknown session or the same frequency |
| AssocModels.AssocModel.EndStream | src/assoc_model.hpp:225-234 | Updates the model in place to the end step's state |
| AssocModels.AssocModel.RemoveSession | src/assoc_model.hpp:237-245 | Updates the model in place to the removal step's state |
| AssocModels.AssocModel.ClearAll | src/assoc_model.hpp:1583-1606 | Forgets every family and restarts call ids; streams keep protocol, family, channel and running state |
| AssocModels.AssocModel.MarkKeep | src/assoc_model.hpp:561-567 | Sets the keep flag of the first call with the id, of that family only |
| AssocModels.AssocModel.Ingest | src/assoc_model.hpp:323-533 | One decoded line updates the model in place to the line step's state, counters still exact |
| LiveCalls.LineHeard | src/assoc_model.hpp:404-533 | What the line step leaves: a line with an id or a message is told to one call, which the stream reached, is live and is not another talker's, with the direct call first; or, only where there is none, to a new one at the end of the list, after another talker's call and the slot's latest ended and room was made; that call takes on the line's ends where it had none, its flags, key and time, or is folded into another stream's live call of the same ends, kind and network |
| LiveCalls.EndsHeard | src/assoc_model.hpp:486-533 | In every reachable state, after a call's line the family lists an open call with the source and target the line names (ids without a bar), the line's flags, heard now or later, on the stream's network unless it was counted on another before |
| LiveCalls.SameCallHeard | src/assoc_model.hpp:421-427 | A live call under the line's slot and target, of the line's talker, is the call: id, start and ends as they were, heard now; no call is opened, and no other changes but that quiet ones end |
| LiveCalls.NewCallHeard | src/assoc_model.hpp:480-484 | Where the line reaches no live call of its talker and no other stream has one between its ends, the newest call is a new one with the next id, begun now on the stream's network, saying what the line says and no more |
| LiveCalls.NamelessHeard | src/assoc_model.hpp:453-471 | A line without ids is its slot's latest call's while that is live, unless it is voice and that is a data call; otherwise no call changes but that quiet ones end |
| LiveCalls.QuietLineHeard | src/assoc_model.hpp:387-414 | Rosters, terminators and lines of unknown kind open and extend no call: a terminator ends the latest call's voice where it was last heard, a line of unknown kind adds flags and key to it |
| LivePointers.RunPointed | src/assoc_model.hpp:421-441 | After any run, every active entry of a stream points to a call on the target its key names, unless that target's id has a bar in it; and no call id is in two families |
| LiveBounds.RunBounded | src/assoc_model.hpp:112-123 | After any run, from any state within the limits, no family has more than 3000 radios, 1500 talkgroups or 200 networks, no radio or talkgroup more than 300 edges of a kind, and nothing more than 32 keys |
| LiveLossless.NothingLost | src/assoc_model.hpp:112-123 | In a run that names fewer than 300 ids, at most 200 networks and at most 32 keys, nothing is evicted or turned away in any family, and every counter is the recount of its calls |
| LiveStreams.BeginIs | src/assoc_model.hpp:161-178 | A stream that begins has its family, protocol and frequency, is running and has heard nothing; its calls end and what the one before it alone vouched for goes; no other stream changes |
| LiveStreams.TuneIs | src/assoc_model.hpp:183-204 | A retuned stream carries on at the new frequency as one that has heard nothing, and even networks identified for good that it alone vouches for go; nothing happens to one that is there already |
| LiveStreams.EndIs | src/assoc_model.hpp:225-234 | A stream that ends is no longer running and has no active calls, and keeps the rest of what it knows but a network that went with it |
| LiveStreams.PruneTakes | src/assoc_model.hpp:2419-2463 | A stopping stream takes with it exactly the networks it fed that no call counts for or names, no other running stream is on and nothing identified for good; with them the radios and talkgroups without calls known through no other; and the family, if nothing is left of it |
| LiveStreams.ClearIs | src/assoc_model.hpp:1583-1606 | A clear forgets every family and what every stream heard, and restarts ids; protocol, family, frequency and running state stay |
| LiveStreams.KeepIs | src/assoc_model.hpp:561-567 | Exactly the keep flag of the first call with the id, of that family, changes |
| LiveStreams.ResolvedStreams | src/assoc_model.hpp:1991-2056 | The stream is on the network its identity names; where its old one is folded into that, every stream on the old one moves along and the old one is gone; otherwise no stream and no network moves |
| LiveBounds.RadioEntered | src/assoc_model.hpp:2059-2077 | A radio new to the family is entered; where there are 3000, the one heard longest ago goes, of several the first by name, and every other stays as it was |
| LiveBounds.TgEntered | src/assoc_model.hpp:2078-2087 | The same of a talkgroup, of 1500 |
| LiveBounds.NetworkEntered | src/assoc_model.hpp:2026-2035 | The same of a network, of 200 |
| AssocModels.AssocModel.Resolve | src/assoc_model.hpp:1991-2025 | The stream is on its identity's network afterwards, which exists; the bucket only it fed, or that the identity narrows, is folded into it |
| AssocModels.AssocModel.PruneSession | src/assoc_model.hpp:2419-2463 | Erases, in place, exactly the networks without calls, listed calls, other running streams or lasting identity that the session fed |
| AssocModels.AssocModel.CloseSessionCalls | src/assoc_model.hpp:2465-2472 | Exactly the session's calls end, in its family and no other |
| AssocModels.SearchTwin | src/assoc_model.hpp:2215-2223 | Finds the newest open, recent call of another stream with the same network, ends and kind, and none only where there is none |
| AssocModels.SearchAdoptable | src/assoc_model.hpp:432-443 | Finds the first active call on the target that the line may join with or without a slot, and none only where there is none |
| AssocModels.FindCurrentCall | src/assoc_model.hpp:421-478 | The call a line continues can still continue, is not another talker's, and is no data call that a voice line without ids would take for a voice call |
| AssocModels.FoldTwin | src/assoc_model.hpp:2226-2265 | In place: the duplicate is off the list, the twin knows what it knew, and the active calls and slots that pointed to it point to the twin |
| AssocModels.StartCall | src/assoc_model.hpp:2278-2306 | In place: the new call is the newest and the latest of its slot, calls with the keep flag stay, and the bound on the others holds |
| AssocModels.ExpireCalls | src/assoc_model.hpp:2374-2384 | Closing and erasing while walking: exactly the active calls gone quiet are closed, exactly the other entries stay |
| AssocModels.Merge | src/assoc_model.hpp:2037-2056 | The network is gone and no call, radio or talkgroup names it; the other's calls are the sum of both |
| Hysteresis.BelievedIsLastPair | src/assoc_model.hpp:1840-1862 | A stream that reports one weak anchor is believed to be the value of the latest two equal sightings in a row, and none before there are any: alternating noise flips nothing |
| Hysteresis.StrongAtOnce | src/assoc_model.hpp:1845-1884 | Strong ids are believed at once; where one contradicts an anchor, only what the report let through is left |
| Hysteresis.ShortCodeBelieved | src/assoc_model.hpp:1785-1862 | A stream whose reports name no control id is believed to have the short code of its protocol (cc, nac or ran) last seen twice in a row |
| Hysteresis.ControlIdAtOnce | src/assoc_model.hpp:1785-1884 | An id that names the network itself, long enough not to be misread, is believed at once, and one that differs from the believed leaves only what the report says |
| Hysteresis.SiteIdsForgetNothing | src/assoc_model.hpp:1840-1884 | A report of other ids alone, sites and channels, forgets nothing that was believed |
| Hysteresis.StreamIdentity.AbsorbIdentity | src/assoc_model.hpp:1840-1885 | The stream's ids and pending codes after a report; tells a change exactly when the ids changed, and a restart forgets the network |
| Hysteresis.Sift | src/assoc_model.hpp:1848-1861 | Erasing while walking, lets through exactly the ids a report establishes and leaves the others waiting |
| NetMerges.AddTidy | src/assoc_merge.hpp:427-436 | Adding a rule keeps the rules flat and at most 500 |
| NetMerges.AddMovesClass | src/assoc_merge.hpp:427-436 | A rule that is added moves exactly the networks shown under `from`, and moves them to what `to` is shown under |
| NetMerges.AddFailsOnOneNetwork | src/assoc_merge.hpp:427-436 | With room left, adding fails exactly when both are shown as one network already |
| NetMerges.RemoveFrees | src/assoc_merge.hpp:439-452 | Removing a merged network frees it alone; removing a target frees exactly those merged into it; it tells a change exactly when a network is shown elsewhere |
| NetMerges.RootIsFixed | src/assoc_merge.hpp:419-424 | The shown key of a network is the shown key of itself |
| NetMerges.UnionCoarsens | src/assoc_merge.hpp:931-938 | Joining another rule set keeps rules flat and takes no two networks apart that were shown as one |
| NetMerges.ReplayRebuilds | src/assoc_model.hpp:904-909 | Adding the rules of a saved flat set one by one, in any order, gives the set back |
| NetMerges.RuleBook.MergesAdd | src/assoc_merge.hpp:427-436 | Rules of one family only change, to the added rule set; the book stays tidy |
| NetMerges.RuleBook.MergesRemove | src/assoc_merge.hpp:439-452 | Rules of one family only change; a family without rules goes |
| NetMerges.RuleBook.MergesUnion | src/assoc_merge.hpp:931-938 | Each family's rules become the union, its own rules winning |
| NetMerges.UnionBookTidy | src/assoc_merge.hpp:931-938 | A joined rule book is tidy and only coarsens what is shown as one |
| MergeInto.MergeConserves | src/assoc_merge.hpp:940-1016 | Where both inputs' counters cover their listed calls, every radio, talkgroup, edge, peer and network counter, less what the listed calls account for, is after the merge the sum of both inputs'; no receiver's hearing of a call is lost |
| MergedMarks.MarksFallShort | src/assoc_merge.hpp:877-907 | The same sum for emergency, encrypted and key counters, as long as no key is turned away for lack of room, is short by exactly one for each duplicate that lends its twin a flag or key the twin lacked, so it holds if and only if none does |
| MergedMarks.EmergencyForgotten | src/assoc_merge.hpp:892-904 | A call that one receiver took for an emergency and the other did not: merged, it is listed as an emergency and its talkgroup counts none |
| MergeInto.UncountTakesShare | src/assoc_merge.hpp:877-900 | Where the counters cover the duplicate, taking it back lowers each counter by exactly its share: no decrement saturates |
| MergeInto.TakeCallConserves | src/assoc_merge.hpp:1000-1013 | One call joining stays counted once, listed or folded into its twin, and its streams are kept |
| MergeInto.FoldedShare | src/assoc_merge.hpp:901-923 | Folding a duplicate into its twin changes nothing the twin is counted for, and adds up their streams |
| MergedCalls.MergePlaces | src/assoc_merge.hpp:989-1013 | A merged list is the first data set's calls in place and then newcomers: each call of the second goes to the first listed call alike in talker, target, kind and shown network that is no more than four seconds from what joined it so far, and otherwise stays a call of its own; each listed call has the hull of its calls' spans, their streams added up, every flag one of them had, and each fact as the first of them that knew it told it |
| MergedCalls.EveryCallListed | src/assoc_merge.hpp:989-1013 | Each call of either input lies within a call of the result between the same parties |
| MergedCalls.PairMerged | src/assoc_merge.hpp:1004-1012 | Two calls alike, one in each input and the only such there: more than four seconds apart both are listed as they were; otherwise they are one call over the earlier start and the later end, streams added |
| MergedCalls.NoGapInMerge | src/assoc_merge.hpp:1006-1007 | Into every stretch of more than four seconds within a merged call reaches a call of the inputs between the same parties |
| MergedEntities.MergedRecords | src/assoc_merge.hpp:944-988 | Every network, talkgroup and radio of either side is there and no other; where both know one, times, sites, frequencies, ids, name, aliases, position and track are joined as the program's rules say |
| MergedEntities.TextsKept | src/assoc_merge.hpp:908-909 | A folded call's text contains both calls' texts |
| MergedEntities.ServicesInOrder | src/assoc_merge.hpp:912 | Of two services the more telling is kept: none, preamble, acknowledgement, data, any other |
| DatasetMerges.MergedConserves | src/assoc_merge.hpp:940-1016 | Conservation for each family of two whole data sets |
| DatasetMerges.BucketFindsTwin | src/assoc_merge.hpp:994-1010 | Looking through the calls indexed under the target finds the very call a search of the whole list finds first |
| DatasetMerges.SearchBucket | src/assoc_merge.hpp:1001-1010 | The indexed search returns the first twin of the whole list |
| DatasetMerges.AddCountsInto | src/assoc_merge.hpp:977-978 | Adds one edge map to another key by key |
| DatasetMerges.CallInto | src/assoc_merge.hpp:1000-1013 | One call is folded into its twin or listed, the index staying right |
| DatasetMerges.FamilyInto | src/assoc_merge.hpp:943-1014 | The loops over networks, talkgroups, radios and calls give the merged family |
| DatasetMerges.Collector.MergeInto | src/assoc_merge.hpp:940-1016 | The data set becomes the merge: rules joined first, then families, sources appended |
| Provenance.NoInstantTwice | src/assoc_merge.hpp:1132-1162 | Whatever files are merged, in whatever order: no instant of a server run is counted by two of the layers kept |
| Provenance.NothingLost | src/assoc_merge.hpp:1132-1162 | Every source of every file that was merged, even if replaced later, or skipped lies within a source of the result: each instant it counted is counted there |
| Provenance.OverlapIsSharing | src/assoc_merge.hpp:1051-1055 | Spans that do not overlap share no instant; non-empty spans that overlap share one; two empty ones overlap only if they are one |
| Provenance.VerdictMeans | src/assoc_merge.hpp:1085-1125 | A file is skipped exactly if it has sources and each lies in one shown already; otherwise refused exactly if it shares an instant with the live data, or with a layer that does not lie in it wholly; otherwise it joins |
| Provenance.TakeKeepsApart | src/assoc_merge.hpp:1088-1124 | A data set that joins replaces every layer it meets, so the layers stay apart |
| Provenance.LiveStaysApart | src/assoc_merge.hpp:1103-1111 | A data set taken in by a running server shares no instant with its live data |
| Provenance.ReportStaysRight | src/assoc_merge.hpp:1145-1155 | Taking in a file leaves a report that tells every file's fate (merged, replaced, skipped, refused, unreadable) right if and only if no report that can still turn to replaced, and is not of a layer that goes, bears the name of one that does |
| Provenance.ReportRightIff | src/assoc_merge.hpp:1135-1156 | For any list of files: the whole report tells every file's fate if and only if no readable file whose own layer is still in, or that never had one, bears the name of a layer that went when a later file joined |
| Provenance.ReportIsRight | src/assoc_merge.hpp:1135-1156 | With files of different names the report tells every file's fate |
| Provenance.SameNameMisleads | src/assoc_merge.hpp:1148-1151 | Three files, two of one name, after which a file in the result is reported as replaced |
| Provenance.SkippedMisleads | src/assoc_merge.hpp:1146-1151 | Three files, two of one name, after which a file that was skipped is reported as replaced |
| Provenance.LayersConserve | src/assoc_merge.hpp:1157-1161 | Before the call lists are bounded: each counter of the merged layers holds, beyond the calls they list, what the layers hold together; streams add up |
| ExportCounts.BoundBeyond | src/assoc_merge.hpp:1022-1045 | Bounding a call list changes no counter: what each holds beyond the listed calls grows by exactly what the dropped calls, the oldest without audio, account for |
| ExportCounts.ExportsConserve | src/assoc_merge.hpp:1132-1162 | For any list of files whose counters cover their calls: each counter of the result holds, beyond the calls it lists, what the layers hold beyond theirs together with the dropped calls |
| Provenance.LayersProvenance | src/assoc_merge.hpp:1015 | The result names exactly its layers' sources |
| ExportMerge.JudgeFile | src/assoc_merge.hpp:1088-1124 | The verdict's loops decide skip, refuse or join, and list exactly the layers to replace |
| ExportMerge.EraseMet | src/assoc_merge.hpp:1146-1153 | Erasing from the back leaves exactly the layers not met, and rewrites the reports of those that went |
| ExportMerge.MergeExports | src/assoc_merge.hpp:1132-1162 | The report, and the merged, ordered and bounded result, for any list of files |
| StableSorts.SortIsStable | src/assoc_merge.hpp:985-987 | The sort is ordered and keeps, for every key, the elements of that key in their order |
| StableSorts.SortUnique | src/assoc_merge.hpp:1040 | It is the only sequence that does |
| CallLists.CappedKeeps | src/assoc_merge.hpp:1022-1034 | The bounded list keeps every call with audio and exactly the first min(cap, n) of the others, and has the size reserved for it |
| CallLists.CappedPicks | src/assoc_merge.hpp:1022-1034 | It is a sub-list in the same order |
| CallLists.CapCalls | src/assoc_merge.hpp:1022-1034 | The drop flags set from the back give that list |
| CallLists.FinishedList | src/assoc_merge.hpp:1037-1045 | Newest first and stable, ids strictly falling, every call with audio, the newest of the others |
| CallLists.CallStays | src/assoc_merge.hpp:1022-1045 | A call with audio is never dropped; one without is dropped only where as many without audio as there may be are kept, and none of them is older |
| CallLists.FinalizeMerge | src/assoc_merge.hpp:1037-1045 | Every family's list is finished so, and nothing else changes |
| Tracks.TrackIsLastRuns | src/assoc_merge.hpp:358-362 | Fixes added one by one leave the last hundred of the run-compressed fixes |
| Tracks.MergedTrack | src/assoc_merge.hpp:984-990 | Two tracks join to the last hundred runs of their stable time order: times never fall, no equal neighbours |
| Tracks.JoinTracks | src/assoc_merge.hpp:984-990 | The joining loop gives the joined track |
| ApplyMerges.GroupsAddUp | src/assoc_merge.hpp:1175-1192 | Each network of the result is the sum, union, least non-zero time, greatest time and best confidence over exactly the networks shown under its key |
| ApplyMerges.TotalUnchanged | src/assoc_merge.hpp:1175-1192 | The family's calls add up to what they did before, and so do its sessions |
| ApplyMerges.TargetsName | src/assoc_merge.hpp:1176-1182 | Where the target is there, its group goes by its name |
| ApplyMerges.GroupIds | src/assoc_merge.hpp:1180-1190 | A group has each id as the first of its networks tells it, the target before the others, and no other id |
| ApplyMerges.AppliedRoots | src/assoc_merge.hpp:1193-1200 | Everything that names a network then names one that is shown |
| ApplyMerges.ApplyTwice | src/assoc_merge.hpp:1167-1203 | Applying the same flat rules again changes nothing |
| ApplyMerges.CountersStay | src/assoc_merge.hpp:1193-1200 | Radio, talkgroup, edge and peer counters stay as they were |
| ApplyMerges.ApplyNetworks | src/assoc_merge.hpp:1175-1192 | The two passes over the networks in place give those groups |
| ApplyMerges.ApplyMerges | src/assoc_merge.hpp:1167-1203 | Every family's data under its rules, and no rules left |
| Json.RoundTrip | src/assoc_merge.hpp:186-312 | Every printed value is read back exactly when it nests at most 64 deep, and refused otherwise |
| JsonSpacing.AnyLayoutRead | src/assoc_merge.hpp:186-312 | A value is read back however its text is laid out, whatever space stands at each place between two tokens, exactly when it nests at most 64 deep |
| Json.ValueBack | src/assoc_merge.hpp:257-308 | The same inside any text, at any depth, leaving what follows untouched |
| Json.StringBack | src/assoc_merge.hpp:223-256 | Quoting a string and reading it gives the string, control characters and quotes included |
| JsonEscapes.PairRead | src/assoc_merge.hpp:237-249 | A surrogate pair, in either case of its digits, is read as the UTF-8 form, in four bytes, of the one code point it stands for |
| JsonEscapes.UnitAloneRead | src/assoc_merge.hpp:237-249 | Any other four digits are read as the UTF-8 form of what they write, half a pair alone included, and what follows is left |
| JsonEscapes.LetterRead | src/assoc_merge.hpp:230-251 | The one-letter escapes are the control characters; any other character after a backslash stands for itself |
| Json.Quote | src/assoc_merge.hpp:66-86 | The quoting loop |
| Json.Parser.ReadStr | src/assoc_merge.hpp:223-256 | The cursor reads exactly one string, or fails where there is none |
| Json.Parser.ReadUnicode | src/assoc_merge.hpp:237-249 | A code unit or a surrogate pair; a second escape that makes no pair is left for later |
| Json.Parser.ReadValue | src/assoc_merge.hpp:257-308 | The recursive descent reads the value and stops where it ends; too deep, or malformed, it fails |
| Json.Parser.ParseAll | src/assoc_merge.hpp:189-194 | One value and nothing but space after it |
| Keyring.FileBack | src/assoc_keys.hpp:109-131 | Every ring that sets and removals reach, times within 2^53, is read back from its file as it was, whatever families, networks and further members the file names |
| Keyring.RingBack | src/assoc_keys.hpp:156-179 | Reading a ring's own JSON gives the ring: same families, networks, ids and entries, nothing empty |
| Keyring.RunWellFormed | src/assoc_keys.hpp:69-94 | Every reachable ring holds normal forms only and no empty map |
| Keyring.NormIdIdempotent | src/assoc_keys.hpp:40-53 | A normal key id is its own normal form |
| Keyring.NormValueIdempotent | src/assoc_keys.hpp:57-66 | A normal key value is its own normal form |
| KeyForms.NormIdWritesNumber | src/assoc_keys.hpp:40-53 | The normal form of an id is the number it writes in hexadecimal, with or without 0x, printed in upper case with two digits at least; what is no number has none |
| KeyForms.SameKeyIffSameNumber | src/assoc_keys.hpp:40-53 | Two ids are one key's if and only if they write the same number |
| KeyForms.NormValueSpellsDigits | src/assoc_keys.hpp:57-66 | A key value's normal form is its digits in upper case, spaces left out; it has one if and only if they are an even number from 2 to 64 and nothing but digits and spaces stands in it |
| KeyForms.LastMemberWins | src/assoc_keys.hpp:156-179 | Of any keys file, whoever wrote it: under each family, network and key number the ring has the entry the file gives last, and none where it gives none |
| KeyForms.AddedIsTruncated | src/assoc_keys.hpp:172-173 | An entry's time is the file's number rounded toward zero, 0 without a number |
| Keyring.PutLooksUp | src/assoc_keys.hpp:69-81 | Setting a key changes that entry alone |
| Keyring.RemoveLooksUp | src/assoc_keys.hpp:83-94 | Removing takes away that key alone, and succeeds exactly when it was there |
| Keyring.KeyNormId | src/assoc_keys.hpp:40-53 | The loops give the normal form |
| Keyring.KeyNormValue | src/assoc_keys.hpp:57-66 | The loops give the normal form |
| Keyring.KeyringJson | src/assoc_keys.hpp:109-131 | The nested printing loops give the ring's JSON text |
| Keyring.KeyringParse | src/assoc_keys.hpp:156-179 | The nested reading loops give the ring of a parsed file |
| Keyring.KeyStore.KeyringSet | src/assoc_keys.hpp:69-81 | Sets the normalised key, or refuses and changes nothing; the ring stays well formed |
| Keyring.KeyStore.KeyringRemove | src/assoc_keys.hpp:83-94 | Removes it, and what it leaves empty |
| Keyring.KeyStore.KeyringHas | src/assoc_keys.hpp:98-106 | Tells whether the key is there |
| Keyring.KeyStore.UseKeysFile | src/assoc_model.hpp:948-957 | Takes over the file's ring, and keeps its own where the file is no JSON object |
| LogLines.LineBack | src/assoc_log.hpp:67-135 | Every line is read back field by field, whatever bytes its strings hold |
| LogLines.StrBack | src/assoc_log.hpp:71-107 | Escaping a byte string and reading it gives the string |
| LogLines.CodeRead | src/assoc_log.hpp:85-98 | An escape of any four hexadecimal digits is read: as one byte up to 0xff, beyond it as the UTF-8 form of what the digits write |
| LogLines.LinePrintable | src/assoc_log.hpp:46-62 | No byte of a line is a line end, so a line is one line |
| LogLines.EscLoop | src/assoc_log.hpp:46-61 | The escaping loop |
| LogLines.LineReader.Parse | src/assoc_log.hpp:67-135 | The reader's index walks the line to its fields, or fails where it is malformed |
| LogLines.LineReader.ReadStr | src/assoc_log.hpp:71-107 | One string, with its escapes |
| Replay.RoundTrip | src/assoc_replay.hpp:78-145 | Whatever is recorded, however the file is cut when read and up to whatever time: the replay applies exactly the recorded operations of the entries before the first that is later than that time, with their times, sessions and texts, up to the size cap; it says that it stopped exactly if there is such an entry in the file, looks at no line after it, and reports no bad line |
| Replay.PiecesDoNotMatter | src/assoc_replay.hpp:135-145 | Any two ways of cutting a file into pieces give the same replay |
| Replay.OpBack | src/assoc_replay.hpp:87-133 | Each operation's line decodes to that operation, or stops the replay if it is later than the time asked for |
| Replay.EventBack | src/assoc_log.hpp:137-154 | An event's thirteen texts come back from its line, the empty ones too |
| Replay.RecordedBack | src/assoc_log.hpp:200-216 | The file holds the entries up to the cap, whole lines only, and says whether it was cut short; read back, they are applied up to the first late one |
| RecordedFiles.FileIsPrefix | src/assoc_log.hpp:198-211 | The file holds the lines of the longest beginning of the run that fits into the cap, and after them the mark that it was cut short, exactly if that is not all |
| RecordedFiles.HeaderRead | src/assoc_model.hpp:282-290 | A reader finds in the header line the version, the time, whether the model was empty, the run's identity and span and the size of its call list |
| RecordedFiles.DamagedLineCounted | src/assoc_replay.hpp:77-140 | A damaged line anywhere in a file costs nothing but itself: the same model, stopped or not as before, one line more and one bad line more |
| Replay.ReplayLog | src/assoc_replay.hpp:78-148 | The reading loop, piece by piece |
| LiveReplay.ReplayReachesLive | src/assoc_replay.hpp:78-145 | A recording from an empty model on, replayed into an empty model up to any time, ends in the state the live model had before the first written operation later than that, and so does whatever further state lines are read by |
| LiveReplay.LiveToTheEnd | src/assoc_replay.hpp:105 | While no operation is later, that is the live state after all of them |
| LiveReplay.IdentitiesReplayed | src/assoc_model.hpp:1804-1885 | `ReplayReachesLive` at the identity rules: with identities that follow the lines as reported, every stream is believed after the replay to be what it was live at that point, with the same codes pending |
| LiveReplay.WrittenSuffice | src/assoc_model.hpp:186-189 | The retunes that are not written changed nothing |
| AudioStore.FirstFinishedGo | src/assoc_audio.hpp:242-253 | The cap deletes exactly the first finished files, in index order, and no file being written |
| AudioStore.CapHolds | src/assoc_audio.hpp:242-253 | Afterwards the total is right and within the cap, or only files being written are left |
| AudioStore.NoMoreThanNeeded | src/assoc_audio.hpp:242-253 | Without an age limit, before the last file went the total was over the cap |
| AudioStore.AgeLimitExact | src/assoc_audio.hpp:242-253 | After one walk a finished file past the age limit is left if and only if one stands behind a young entry at which the walk can rest |
| AudioStore.AgeLimitAfterSamples | src/assoc_audio.hpp:97-107 | After samples a finished file past the age limit is left if and only if there is one while the total is within the cap, or, past the cap, one stands behind a young entry at which the walk can rest |
| AudioStore.OldestFirstKeepsAge | src/assoc_audio.hpp:242-253 | While the index runs from oldest to newest, none is left |
| AudioStore.AgeLimitMissed | src/assoc_audio.hpp:97-107 | A run of opening, appending and finishing after which, past the cap, a finished file twice as old as the limit is still in the index |
| AudioStore.CallAudioStore.OpenFile | src/assoc_audio.hpp:85-96 | The accounts (index, total, folder) stay right if and only if the file was not created or its name was new to the index |
| AudioStore.AccountsBroken | src/assoc_audio.hpp:85-96 | A run of opening, appending and finishing after which a file is opened under a finished one's name, and the accounts are wrong |
| AudioStore.CallAudioStore.Append | src/assoc_audio.hpp:97-107 | The file and its entry grow by the samples; past the cap the first finished files go and are reported; says exactly when a file past the age limit is left |
| AudioStore.CallAudioStore.EnforceNow | src/assoc_audio.hpp:242-253 | Deletes and reports exactly what the cap and age rules say, accounts right |
| AudioStore.CallAudioStore.Finish | src/assoc_audio.hpp:109-114 | The file is closed with a header that tells all its samples |
| AudioStore.CallAudioStore.Discard | src/assoc_audio.hpp:116-120 | The file leaves the folder, the index and the total |
| AudioStore.CallAudioStore.RemoveAll | src/assoc_audio.hpp:125-136 | Exactly the finished files go; their number and bytes are returned and the total falls by them |
| AudioStore.CallAudioStore.Enable | src/assoc_audio.hpp:53-75 | The folder's files are indexed by age and the cap enforced; none past the age limit is left |
| AudioStore.CallAudioStore.Disable | src/assoc_audio.hpp:77-81 | Every file being written is finished; nothing is deleted |
| AudioStore.CallAudioStore.TakeEvicted | src/assoc_audio.hpp:140-144 | Hands over the evicted names and forgets them |
| AudioStore.CallAudioStore.Has | src/assoc_audio.hpp:149 | A name is known exactly if it is well formed and its file is in the folder |
| AudioFiles.NamesAccepted | src/assoc_audio.hpp:175-190 | The name made for any call of any run is one the store takes |
| AudioFiles.NamesTellApart | src/assoc_audio.hpp:182-190 | Two calls have one file name if and only if start, id and the first eight letters and digits of the run's instance id are the same |
| AudioFiles.NamesStayInside | src/assoc_audio.hpp:175-181 | A name the store takes has no slash and no two dots in a row: it names a file in the folder |
| AudioFiles.OnlyOldGo | src/assoc_audio.hpp:242-253 | Within the cap only finished files last written to longer ago than the age limit go, and without a limit none |
| AudioFiles.NoneOutlives | src/assoc_audio.hpp:242-253 | Of an index in the order of age no finished file last written to longer ago than the limit is left |
| AudioFiles.HeaderKeepsUp | src/assoc_audio.hpp:97-107 | After samples the header tells of all of them, up to what its field is given, or it did less than a second before and is as it was |
| CallAudio.CallRecorder.Close | src/assoc_model.hpp:2343-2363 | A call that ends keeps its file if and only if it is not encrypted or was decoded with a key, is not data-only and is long enough; otherwise name and file go, and no other file does |
| CallAudio.CallRecorder.Adopt | src/assoc_model.hpp:2226-2265 | The fold leaves one file, the twin's own where it had one; the other is deleted; every named file is still there |
| CallAudio.CallRecorder.Block | src/assoc_model.hpp:612-707 | A block of voice starts the call's file with what was held first, is appended to it, or bars an encrypted call without a key from audio and deletes its file; of the other files exactly those the cap evicts go, each with its call's audio; every named file is still there, and no two calls name one |
| CallAudio.CallRecorder.StartAudio | src/assoc_model.hpp:570-579 | Exactly the calls whose files the cap evicts on starting lose their audio; calls and files then agree if and only if the folder has every file a call names |
| CallAudio.CallRecorder.RollOff | src/assoc_model.hpp:2290-2294 | A full list loses its oldest call without the keep flag; that flag tells exactly which calls have a file, so no file goes or is left without its call |
| CallAudio.RollOffMakesRoom | src/assoc_model.hpp:2290-2294 | A list within its bound has room for one call more afterwards; with room before, nothing goes; no call with the keep flag goes |
| CallAudio.RecordingBegins | src/assoc_model.hpp:662-706 | What any blocks and flags leave of a call without a recording: none, and none later, once a block came without a key while it was encrypted; else none before the first audible block whose file could be created; else that block's file, as long as the audio held before it, the block and the recording's later blocks together |
| CallAudio.EndKeepsOrClears | src/assoc_model.hpp:2343-2363 | A call that ends keeps its recording if and only if it is not encrypted or was decoded with a key, is not data alone and is a fifth of a second long at least; otherwise neither file, length nor keep flag is left |
| CallAudio.CallRecorder.Voice | src/assoc_model.hpp:693-706 | Held audio, then the block, grow the call's file; one look at the evicted files at the end |
| CallAudio.CallRecorder.Clear | src/assoc_model.hpp:250-263 | The calls are forgotten and every file being written is finished; when asked, no file at all is left |
| CallAudio.Reconcile | src/assoc_model.hpp:2324-2342 | Exactly the calls that name an evicted file lose their audio and keep flag |
| CallAudio.DroppedTidy | src/assoc_model.hpp:2324-2342 | After that every named file is in the folder |
| CallAudio.AdoptedAudioKept | src/assoc_model.hpp:2230-2251 | A recording a twin took over survives whatever blocks and flags follow, and the twin's end, if and only if no block without a key comes while the call is encrypted, the twin itself is decoded with a key before or after the fold if the call is encrypted, it is no data-only call, and it is long enough; that the duplicate was decoded with a key counts for nothing |
| CallAudio.CallRecorder.AdoptRecording | src/assoc_model.hpp:2226-2265 | The same of the files: after fold, blocks, flags and end, the recording is in the folder if and only if it survives |
| CallAudio.RecordingLost | src/assoc_model.hpp:2355-2360 | A run in which a recording decoded with a key and worth its file is deleted, because its call was folded into a twin that was not itself decoded with one |
| CallAudio.CallRecorder.StartFile | src/assoc_model.hpp:686-692 | Creating a call's file leaves calls and files in agreement if and only if no finished file has its name |
| CallAudio.AgreementBroken | src/assoc_model.hpp:686-692 | A run in which, after a clear, a call's file is created under the name of the forgotten call's finished one, and calls and files disagree |
| CallAudio.CallRecorder.StopAudio | src/assoc_model.hpp:580-586 | Every file being written is finished, and none is lost |
| Demod.Stream | src/pager_demod.cpp:72-92 | For every way of cutting the stream into blocks, empty ones included, the blocks' outputs join up to one call on the whole stream |
| Demod.PagerFmDemodulator.Process | src/pager_demod.cpp:72-92 | One block appends exactly what one call on the whole stream so far gives beyond what it gave before |
| Filters.ChannelImpulse | src/pager_demod.cpp:94-131 | To a single sample the channel filter answers with its taps, last one first, from that sample on, and with silence before and after |
| Filters.ChannelSuperposes | src/pager_demod.cpp:94-131 | The channel filter's answers add up |
| Filters.AudioImpulse | src/pager_demod.cpp:166-183 | The audio filter answers a single sample the same way |
| Filters.AudioSuperposes | src/pager_demod.cpp:166-183 | The audio filter's answers add up and scale |
| Filters.DecimatedIs | src/pager_demod.cpp:119-131 | Decimated sample n is the channel filter's answer at sample n * decim, and there are as many as there are such samples |
| Filters.AudioIs | src/pager_demod.cpp:166-183 | The audio filter answers at every detected sample |
| Filters.OutputIs | src/pager_demod.cpp:85-91 | Output n is the straight line between the two audio samples around n * step, in 16 bits, and is there as soon as both are |
| Detection.DetectedIsTurn | src/pager_demod.cpp:133-141 | Each detected sample is the arc tangent of the area and the inner product of two successive decimated samples: the angle the signal turned by |
| Detection.TurnedAlike | src/pager_demod.cpp:133-141 | Turning the whole stream by one phase changes no detected sample but the first |
| Detection.MirroredOpposite | src/pager_demod.cpp:133-141 | The conjugated stream turns by the same angles the other way |
| Detection.QuarterTurn | src/pager_demod.cpp:133-141 | A quarter turn forward is detected as the angle of the positive imaginary axis |
| Detection.CarrierIsSilent | src/pager_demod.cpp:119-141 | An unmodulated carrier is detected as the angle of the positive real axis, of the carrier's power times the filter's gains; with one tap of 1, of its power |
| Detection.LineStays | src/pager_demod.cpp:185-206 | The resampler gives a straight line back as the same line |
| Detection.PcmNear | src/pager_demod.cpp:85-91 | A sample within the 16-bit range is cut toward zero by less than one; beyond it, it is clipped |
| Demod.BlockStep | src/pager_demod.cpp:94-131 | History and decimation phase carry the channel filter across a block |
| Demod.FilteredGrid | src/pager_demod.cpp:94-131 | Output k of the channel filter sits at sample k * decim |
| Demod.ResampledGrid | src/pager_demod.cpp:185-206 | Output k of the resampler is the linear interpolation at k * step, until the input ends |
| Demod.BlockCoordinates | src/pager_demod.cpp:193-204 | A block's position never falls below -1: the guard branch is dead, and position -1 is the sample before the block |
| Demod.ReadyHasSteps | src/pager_demod.cpp:193-202 | For any step above zero the resampling loop ends |
| FmDemod.SampledAlikeIffAligned | src/fm_demod.cpp:229-236 | The wideband filter samples the blocks where one call on the whole stream does if and only if every block with samples starts on the decimation grid |
| FmDemod.AlignedStream | src/fm_demod.cpp:214-241 | Then the blocks' outputs join up to one call's |
| FmDemod.OffGridOutputsDiffer | src/fm_demod.cpp:229-236 | For blocks of any lengths there is a filter and a stream on which the joined outputs are one call's if and only if every block with samples starts on the grid |
| FmDemod.OneByOne | src/fm_demod.cpp:229-236 | Two blocks of one sample each, every second sample kept: two outputs where one call gives one |
| FmDemod.BlockwiseIsSampled | src/fm_demod.cpp:214-241 | For any blocks, the outputs are the filter's values at those positions |
| FmDemod.FmDemodulator.MixAndFilterDecimate | src/fm_demod.cpp:196-242 | One block's outputs: the filter's, from the block's first sample on; the history carries on |
| Fft.FftRadix2 | src/net_page.hpp:2572-2592 | For every power-of-two length, the two in-place stages leave the discrete Fourier transform of the input |
| Fft.ButterfliesAreDft | src/net_page.hpp:2579-2591 | Butterflies over the bit-reversed input give each Fourier coefficient |
| Fft.BitReversedHalves | src/net_page.hpp:2574-2578 | Bit reversal puts the even-placed half first and the odd-placed half after, each reversed |
| Fft.ReverseTwice | src/net_page.hpp:2574-2578 | Bit reversal undoes itself |
| Fft.CarryDownReverses | src/net_page.hpp:2574-2576 | The carry loop steps to the next index's reversal |
| Fft.HalfTurn | src/net_page.hpp:2580 | The twiddle of half a block's length is -1 after half the block |
| Fft.ReverseBits | src/net_page.hpp:2574-2578 | The swapping loop permutes both arrays by bit reversal |
| Fft.Passes | src/net_page.hpp:2579-2591 | The stages of butterflies, in place |
| Communities.FindCommunities | src/net_page.hpp:3097-3116 | Every community shown is a connected component of the listed radios and talkgroups and worth showing; every node of such a component is in exactly one; the largest come first; two nodes are together if and only if a chain of talk ties them |
| Communities.TogetherIffTied | src/net_page.hpp:3097-3116 | Two different nodes are shown in one community if and only if a chain of listed nodes joins them in which each next two are a radio and a talkgroup it used, or a radio it called |
| Communities.ShownIffTalked | src/net_page.hpp:3109-3116 | A listed node is shown, in one community and once in it, if and only if it used, called or was used or called by another listed one |
| Communities.EdgesAre | src/net_page.hpp:3104-3107 | The links are exactly what the radios' records say: the listed talkgroups a radio used and the listed radios it called |
| Communities.TogetherIffLinked | src/net_page.hpp:3097-3116 | In such a result two nodes are shown in one community if and only if both are listed, a path of links joins them, and their component is worth showing |
| Communities.GroupsAreCommunities | src/net_page.hpp:3109-3116 | Grouping by root gives exactly the components |
| Communities.JoinKeepsComponents | src/net_page.hpp:3100-3108 | After a link's ends are joined, two nodes share a root if and only if a path of links joins them |
| Communities.HalvingKeepsRoots | src/net_page.hpp:3099 | Pointing a node at its grandparent changes no root |
| Communities.HangJoins | src/net_page.hpp:3100 | Hanging one root under another joins their trees and moves no other node |
| Communities.Table.Find | src/net_page.hpp:3099 | Ends at the root, the forest acyclic and every root unchanged |
| Communities.Table.Join | src/net_page.hpp:3100 | The link's ends end up in one tree, all else as it was |
| Crc.ByteAtOnce | src/net_page.hpp:2926-2934 | A table step is eight steps of the bit-by-bit division |
| Crc.Checksum.Of | src/net_page.hpp:2926-2934 | The table-driven checksum is the bit-by-bit CRC-32 |
| Zip.RoundTrip | src/net_page.hpp:2936-2959 | Reading a zip gives back the files' names and bytes in order, folders left out, of as many files as the 16-bit count keeps (PKWARE APPNOTE sections 4.3.7, 4.3.12 and 4.3.16) |
| Zip.PlainRoundTrip | src/net_page.hpp:4473-4494 | Files within the sizes the format can hold come back exactly if and only if there are fewer than 65536 of them and each is plain: its name ends in no slash and begins with no byte-order mark |
| Zip.TooManyFiles | src/net_page.hpp:2936-2959 | 65536 small files fit the format's other fields, and are read back as none |
| Zip.HeadersInPlace | src/net_page.hpp:2936-2959 | Each directory entry's offset leads to its file's local header, and both hold the data's checksum |
| Zip.HeadersAgree | src/net_page.hpp:2936-2959 | A file's local header and its directory entry agree and are true: version, UTF-8 flag, stored, time and date, both sizes, name length, no extra field, and the name after each (PKWARE APPNOTE sections 4.3.7 and 4.3.12) |
| Zip.EndRecordTells | src/net_page.hpp:2953-2958 | The archive ends with an end record without comment: one disk, all entries on it, the directory's place, and its size, which is all between the files and the record (section 4.3.16) |
| Zip.FindEnd | src/net_page.hpp:4475 | The last end record within the last 66000 bytes is found, and none only where none is there |
| Zip.ZipBlob | src/net_page.hpp:2936-2959 | The writing loop, its offsets and directory length |
| Zip.Unzip | src/net_page.hpp:4473-4494 | The reading loops: entries, no zip, a damaged directory, or a field outside the buffer |

## Left out

- Classification of decoder lines, derivation of a network's key and label from its ids, and which networks count as
  identified for good: inputs of the live model (`Event`, `Identity`, `kept`).
- Limits of the live model: in a family where an entity was evicted or an edge or key turned away (`lossy` set), the
  counters are not claimed to be recounts, since an evicted and re-created entry starts again at zero. `past` and
  `lossy` are instrumentation of the model, not fields of the program; `LiveLossless.NothingLost` names runs in which
  no limit is hit.
- Free text of a live call (alias, message, site, service, position), its voice quality, aliases and tracks of live
  radios, version counters and first-heard times: no counter depends on them.
- Integer widths of counters and times: unbounded here, except where a number is printed and read back.
- MergeInto.MergeConserves: claims call, edge and network counters and streams; the counters of flags and keys have
  their own statement, `MergedMarks.MarksFallShort`, which leaves out entities with more keys than are kept.
- Datasets: voice-quality fields of a call, sites' labels, parsing of an export's JSON into a data set and the
  qualification of its network keys; a data set is the input.
- Provenance: the wording of messages; a report's time and label texts beyond its name and status.
- std::stable_sort, std::sort: modelled by the one stable sort; where the program's sort leaves the order of equal
  files open (`AudioStore.CallAudioStore.Enable`), that is one of the orders it allows.
- Json: error messages; numbers other than whole ones up to 2^53 go through the parameter `other`, as does their
  printing; the other sections of the keys file are further members here.
- Keyring: the key lists handed to the decoder and the listing of loaded keys.
- Replay: gzip, the counts of each kind of operation, the rewriting hook, first and last times, and the bodies of
  snapshots; a recording made while audio is being recorded writes its keep lines after the line that caused them.
- Audio: sample values, the choice of the call a block belongs to, audio held per slot before it is used (its lengths
  are inputs), imported audio, the mutex; a call's file name is an input, new to the store (how names are made:
  `AudioFiles`).
- CallAudio.CallRecorder.Block: where it creates a file, asks that no finished file has its name; names repeat only
  when a call id and start time recur after a clear, and what is wrong then `CallAudio.CallRecorder.StartFile` says.
- Demod: oscillator, automatic frequency control and float rounding; the arc tangent is a parameter and samples are
  exact reals. The stages after the wideband channel filter are not modelled again.
- Fft: rounding, and the twiddle factors' values: they are a parameter with the two laws of roots of unity.
- Zip: text encoding of names (they are their bytes, a leading byte-order mark dropped on reading), the inflater (a
  parameter), and time stamps (inputs).
- Sessions, sockets, HTTP, page rendering, GraphML and speech-to-text.
