# A model of the carriers mailing-list daemon

carriers takes a post over SMTP or LMTP, decides with a chain of Sieve scripts what becomes of it,
and relays one signed copy per subscriber; held posts wait for a moderator, and delivery failures
come back to a per-subscriber return path and count against the subscriber. This project models
that path end to end in Dafny and proves what the daemon promises about it.

Code that changes things step by step is modelled as it is written: the script event loop, the
policy accumulator, the persistent tables, the editing of headers in place, preparation and
delivery, the moderator's commands, the byte reader and the session loop are classes and methods
with loops. Each is proved to compute a function of its inputs and of the state before, and the
laws are then proved about those functions, over every run.

Libraries are arbitrary: a custom script is any finite tree of events that branches on the answers
it gets, and every authentication verdict, signature value, parser answer and acceptance by the
smarthost is any value, chosen anew at each step.

## The files

| files | what they hold |
|---|---|
| `wrappers.dfy`, `seqs.dfy`, `text.dfy` | results and errors; a fact about sequences; the string operations of the Rust standard library; sorted listings |
| `message.dfy` | messages as header fields and body; which fields a DKIM signature covers |
| `store.dfy` | the tables for members, seen Message-IDs and the moderation queue |
| `sieve_engine.dfy`, `policy.dfy`, `policy_laws.dfy`, `script_laws.dfy`, `engine_laws.dfy` | one script run and what it contributes; the before and after chains; the DMARC gate; which scripts of an engine have a say |
| `lists.dfy`, `transform.dfy`, `transform_laws.dfy`, `header_laws.dfy`, `sign.dfy` | loaded lists; the edits of the outgoing copy and the headers it shows; the signing layers |
| `verp.dfy`, `recipients.dfy`, `bounce.dfy` | return paths; resolving envelope recipients; reading failure reports |
| `pipeline.dfy`, `lifecycle.dfy` | the daemon's operations; runs of any length |
| `disposition_laws.dfy`, `signing_laws.dfy`, `delivery_laws.dfy`, `member_laws.dfy`, `once_laws.dfy`, `ledger.dfy`, `attribution_laws.dfy` | how steps end, what copies carry, who gets them: what holds in every run |
| `resend.dfy` | a concrete run that delivers one message twice |
| `framing.dfy`, `session.dfy`, `session_laws.dfy`, `reply_laws.dfy`, `posting_laws.dfy` | lines, DATA and CRLF; the SMTP and LMTP session, its replies, and how a client's post reaches its list |

`dafny verify dfyconfig.toml` checks everything.

## Where the code and its documentation part

The model follows the code. Each point names the lemma that states it.

- A drop-in's hold does not stop the drop-ins after it; it only silences the list's own policy
  (`crates/carriers-core/src/policy.rs:836-846`, `:738`). `README.md:400-402` reads stronger
  (`HoldDoesNotStop`): a hold stands exactly when no other drop-in refuses, drops or fails
  (`HoldStandsIff`), and it is as if the later ones were skipped exactly when they ask for no new side
  effect either (`HoldSkipsIff`). Silencing the list policy can soften the outcome;
  `InsertMaySoftenReject` says exactly when, and `HoldSoftensRefusal` shows it on an engine.
- A Message-ID is recorded before the policy chain and before delivery
  (`crates/carriers-core/src/pipeline.rs:127`), so a post with a Message-ID that fails later is not
  taken again (`RepostIsDropped`). A post without one is never recorded and is taken in as often as it
  comes (`TakenAgainIff`).
- Over plain SMTP a policy's refusal is answered with 451, not 550
  (`crates/carriers/src/smtp.rs:155-165`); only LMTP relays the refusal (`RefusalOverSmtp`).
- The end of the stream inside DATA ends the message as if it were complete
  (`crates/carriers/src/smtp.rs:417-419`). `EndOfStreamHandsOn` states it for every message, and
  `EndUnseenIff` says when a terminator would have made no difference.
- "The prefix is never stacked" (`crates/carriers-core/src/builtin_policies/subject-prefix.sieve:15`)
  fails for a tag with a backslash in it, which `:matches` reads as an escape: `BackslashTagStacks`
  gives one, and `PrefixIdempotentIff` says for which tags it holds.
- "Disables delivery once the score reaches the threshold" (`crates/carriers-core/src/store.rs:203-204`)
  is decided at each bounce only. A score at the threshold means disabled in every run exactly when
  the threshold is positive (`ScoreDisablesIff`); with zero or less a fresh member is at it and not
  disabled (`ZeroThresholdDiverges`). The converse, disabled only while the score is there, also
  needs weights that are not of opposite signs: nothing validates them
  (`crates/carriers-core/src/config.rs:68-76`), and a negative one can bring the score back down
  under a flag that stays (`FlagAgreesIff`, `MixedSignsDiverge`).
- "DKIM stays valid because headers are only prepended" needs one condition: an author's `h=` list
  that oversigns an added name, such as an absent `List-Id`, selects the added field
  (`AuthorSignatureSurvives` both ways, `OversignedListId`).
- The signed headers are said to include the `List-*` headers that are added
  (`crates/carriers-core/src/list.rs:16-19`), but `List-Unsubscribe-Post` is not among them: they all
  are exactly for lists without a one-click unsubscribe target (`ListBlockSignedIff`).
- The lists are keyed by the posting address as written, lowercased, while lookups also trim
  (`crates/carriers/src/state.rs:63-65`, `:118-121`): a list is found exactly when its posting address
  has no white space around it (`FoundIffTrimmed`).
- An approval whose delivery fails after some copies went out leaves its queue entry, and the next
  approval sends those copies again (`crates/carriers/src/main.rs:522-525`):
  `ReapprovalServesAgain` and `SecondCopyFollows`, with a concrete run in `SecondCopyGoesOut`. `OneCopyUnlessInterrupted`
  bounds the copies by the number of such approvals. A post that fails in the same way is not sent
  again, since it left no entry (`InterruptedPostIsFinal`).

## Model

| member | source | states |
|---|---|---|
| SieveEngine.Run | crates/carriers-core/src/sieve_engine.rs:109-188 | The event loop of one script run: the first decisive event gives the outcome, the last rebuilt message wins, every `fileinto` destination is kept in order, a runtime error or a non-optional include fails the run, and the seen table ends as the events left it. |
| SieveEngine.Respond | crates/carriers-core/src/sieve_engine.rs:134-180 | The yes/no answer to each event, and the one event that writes: a `duplicate` test records its id, and only when a store stands behind it. |
| SieveEngine.Note | crates/carriers-core/src/sieve_engine.rs:156-179 | What one event does to the three accumulators: a later discard or reject never replaces an earlier one. |
| SieveEngine.FirstDecisiveSnoc | crates/carriers-core/src/sieve_engine.rs:163-170 | First decisive action wins: a later event matters to the outcome only if nothing decisive came before it. |
| SieveEngine.InertStaysInert | crates/carriers-core/src/sieve_engine.rs:31-42 | A `duplicate` test outside the built-in check leaves no trace, however the script uses it. |
| ScriptLaws.ContributionIs | crates/carriers-core/src/policy.rs:973-1010 | Any policy script, read off the events of its run: it contributes a discard or a reject exactly if the first decisive event is that, a hold exactly if none is decisive and it filed into a moderation folder in any case, and each side effect exactly if it filed into its folder; a failed run contributes its failure. |
| ScriptLaws.Branches | crates/carriers-core/src/sieve_engine.rs:134-180 | Which way a policy script goes: told that nothing is a duplicate, that no mailbox exists and that an optional include is absent; a mandatory include fails it; every action succeeds. |
| ScriptLaws.MembershipIsLookedUp | crates/carriers-core/src/policy.rs:219-228 | A membership test is answered yes exactly if the members table has, for some value lowercased and some role named, a row of this list with that role. |
| ScriptLaws.ScriptErrors | crates/carriers-core/src/sieve_engine.rs:131-155 | A script fails only with a runtime error or a refused include. |
| Policy.Accumulator.Absorb | crates/carriers-core/src/policy.rs:934-962 | Folding one script in: an approval keeps the decision so far, anything else replaces it; each flag stays set once set. |
| Policy.RunTier | crates/carriers-core/src/policy.rs:851-878 | One policy script contributes the reading of its run, with duplicate tracking off. |
| Policy.RunScripts | crates/carriers-core/src/policy.rs:824-848 | The loop over one group of drop-ins is a left fold that stops at the first terminal decision or failure. |
| Policy.EvaluateBefore | crates/carriers-core/src/policy.rs:679-753 | The before half: gate, global and domain drop-ins as one fold, then the list policy only while the decision is still approval; an unknown policy name is a configuration error. |
| Policy.EvaluateAfter | crates/carriers-core/src/policy.rs:761-818 | The after half: gate, domain and global drop-ins as one fold from approval. |
| Policy.FoldConcat | crates/carriers-core/src/policy.rs:679-753 | Running two groups one after the other into the same accumulator is running their concatenation. |
| PolicyLaws.FoldIsClosedForm | crates/carriers-core/src/policy.rs:824-971 | The accumulator loop equals a closed form: the first terminal decision, else a hold if any script asked for one, else approval; each flag is the union over exactly the scripts that ran. |
| PolicyLaws.BeforeIsClosedForm | crates/carriers-core/src/policy.rs:679-753 | The closed form of the whole before half, with the list policy heard only when the drop-ins leave approval. |
| PolicyLaws.FoldApproves | crates/carriers-core/src/policy.rs:836-846 | A chain approves if and only if it starts from approval and every one of its scripts approves. |
| PolicyLaws.BeforeApprovesIff | crates/carriers-core/src/policy.rs:679-753 | A post is approved at intake if and only if every drop-in and the list policy approve. |
| PolicyLaws.InsertNeverApproves | crates/carriers-core/src/policy.rs:736-752 | Inserting any script at any place among the before drop-ins never turns a non-approval into an approval. |
| PolicyLaws.InsertMaySoftenReject | crates/carriers-core/src/policy.rs:736-752 | The limit of the previous law, exactly: inserting a before drop-in lowers the severity of the outcome if and only if every other drop-in approves, the new one asks for a hold, and the list policy would have refused, dropped or failed. |
| PolicyLaws.InsertSoftensIff | crates/carriers-core/src/policy.rs:738-752 | The same over the contributions of arbitrary scripts, without reference to an engine. |
| PolicyLaws.HoldSoftensRefusal | crates/carriers-core/src/policy.rs:736-752 | An instance on two engines that differ in one global drop-in: with a list policy that refuses everything, holding everything ahead of it turns the refusal of any message that passes DMARC into a hold. |
| PolicyLaws.HoldDoesNotStop | crates/carriers-core/src/policy.rs:836-846 | From a hold at any place that the chain reaches, the outcome is that hold merged with the closed form of all drop-ins after it, whatever the list policy says. |
| PolicyLaws.HoldStandsIff | crates/carriers-core/src/policy.rs:836-846 | When a hold settles the decision: a post is held for it, wherever it is asked for, if and only if no other drop-in refuses, drops or fails. |
| PolicyLaws.HoldSkipsIff | crates/carriers-core/src/policy.rs:836-846 | When it would be as if the later drop-ins were skipped, flags included: if and only if none of them stops the chain or asks for a side effect not asked for already. |
| PolicyLaws.EngineHoldStandsIff | crates/carriers-core/src/policy.rs:690-752 | The first two for an engine: any drop-in that holds, at any place the chain reaches behind the DMARC gate. |
| PolicyLaws.FoldRankMonotone | crates/carriers-core/src/policy.rs:957-971 | Starting a chain from a severer decision never gives a milder result (approve, hold, terminal or failed). |
| PolicyLaws.InsertNeverLowersRank | crates/carriers-core/src/policy.rs:761-848 | Inserting any script at any place in the after chain never lowers the severity of its result. |
| PolicyLaws.BeforeGateHolds | crates/carriers-core/src/builtin_policies/dmarc-before.sieve:10-14 | An enforced DMARC failure gives exactly the gate's rejection, whatever the drop-ins and the list policy are. |
| PolicyLaws.AfterGateHolds | crates/carriers-core/src/builtin_policies/dmarc-after.sieve:15-21 | At distribution time an enforced failure gives exactly the gate's rejection, and an unenforced one can only succeed with the own-signature flag withheld: no configured script can undo either. |
| PolicyLaws.GateSilentOnPass | crates/carriers-core/src/builtin_policies/dmarc-after.sieve:15-21 | Neither gate has any effect on a message that passes. |
| EngineLaws.BeforeApproval | crates/carriers-core/src/policy.rs:679-753 | Approval at intake in terms of the engine: the gate, every global drop-in, every drop-in of the list's domain and the named policy, which must exist, all approve. |
| EngineLaws.AfterApproval | crates/carriers-core/src/policy.rs:761-818 | Approval at distribution time in terms of the engine: the gate, every drop-in of the list's domain and every global drop-in approve. |
| EngineLaws.GlobalBeforeFirst | crates/carriers-core/src/policy.rs:709-734 | At intake a global drop-in that stops the chain decides whatever the domain's drop-ins and the list policy are. |
| EngineLaws.DomainAfterFirst | crates/carriers-core/src/policy.rs:791-816 | At distribution time a domain drop-in that stops the chain decides whatever the global drop-ins are. |
| EngineLaws.ChainFailure | crates/carriers-core/src/policy.rs:679-818 | A chain fails only with a script's runtime error, a refused include or an unknown policy. |
| EngineLaws.AfterFlags | crates/carriers-core/src/policy.rs:933-942 | In an approving after half each flag is set exactly if some script filed into the folder that stands for it. |
| Storage.Store.AddMember | crates/carriers-core/src/store.rs:96-120 | Insert, or replace the three roles and keep score and disabled flag; no other row changes. |
| MemberLaws.AddSetsRoles | crates/carriers-core/src/store.rs:94-120 | After adding, the row has the three roles as given, keeps score and flag if it was there, and no other row has changed. |
| Storage.Store.RemoveMember | crates/carriers-core/src/store.rs:122-129 | The row of the canonical address goes, all others stay. |
| Storage.Store.Subscribers | crates/carriers-core/src/store.rs:168-177 | Exactly the subscribed rows that are not disabled, in address order. |
| MemberLaws.RecipientsRead | crates/carriers-core/src/store.rs:167-177 | An address is among the recipients exactly if the members table has its row, subscribed and not disabled. |
| Storage.Store.RecordBounce | crates/carriers-core/src/store.rs:208-230 | The score grows by the weight, the flag is set once the score reaches the threshold and never cleared; a non-member is reported as such and changes nothing. |
| Storage.Store.EnableMember | crates/carriers-core/src/store.rs:233-243 | Clears score and flag of an existing row, and says whether there was one. |
| Storage.Store.RecordMessage | crates/carriers-core/src/store.rs:250-260 | Records the pair, and says whether it was new. |
| Storage.Store.EnqueueHeld | crates/carriers-core/src/store.rs:266-290 | The row goes in under an id one above the sequence counter, which the schema never lets go back. |
| Storage.HeldRoundTrip | crates/carriers-core/src/store.rs:266-349 | The queue as its readers see it: an entry reads back as it was stored, under an id nothing answered to before, until it is deleted; storing or deleting one leaves every other as it was, and deleting what was just stored restores the queue. |
| Storage.Store.DeleteHeld | crates/carriers-core/src/store.rs:343-349 | Removes that entry only, and says whether there was one. |
| Text.SortAddresses | crates/carriers-core/src/store.rs:168-177 | The sorting behind `ORDER BY address`: the result is the listing of the set. |
| Text.ListingSorted | crates/carriers-core/src/store.rs:168-177 | A listing names every element once and nothing else, in ascending byte order. |
| Text.LexLeIff | crates/carriers-core/src/store.rs:168-171 | The order of the listing: by the first difference, a prefix first. |
| Text.SameNameIff | crates/carriers-core/src/policy.rs:1002-1019 | Names and folders are compared letter by letter, ASCII case aside. |
| Lists.FromConfig | crates/carriers-core/src/list.rs:161-170 | A list loads if and only if its posting address has an `@` with something after the last one; the domain is that part. |
| HeaderLaws.DefaultListId | crates/carriers-core/src/list.rs:211-216 | Without a configured id the list id is the posting address with every `@` replaced by a dot. |
| Lists.LoadLists | crates/carriers/src/state.rs:99-124 | Loading succeeds if and only if every file is valid, and each lowercased posting address then finds the last file that claims it. |
| Recipients.LoadedIff | crates/carriers/src/state.rs:104-122 | What loading leaves: a list sits under a key exactly if its file is the last one whose lowercased posting address is that key. |
| Lists.ListByName | crates/carriers/src/state.rs:68-70 | Finds a loaded list of that name if and only if there is one. |
| Messages.PrependKeepsBytes | crates/carriers-core/src/sign.rs:199-203 | Prepending fields leaves the message's bytes as an exact suffix. |
| Messages.SelectUnderPrepend | crates/carriers-core/src/list.rs:14-20 | For any `h=` list (section 5.4.2 of RFC 6376), prepending fields leaves the selected instances unchanged if and only if the list does not oversign an added name. |
| Messages.SelectIsBottomUp | crates/carriers-core/src/list.rs:14-20 | The selection agrees with its declarative rule: the n-th entry of a name takes the instance with n others of that name below it, or the null string. |
| Transform.SubjectPrefixEnv | crates/carriers-core/src/transform.rs:132-141 | A tag handed to the script is trimmed and never empty; a blank prefix means the script is not used. |
| Transform.Editor.MungeFrom | crates/carriers-core/src/builtin_policies/munge-from.sieve:16-19 | The four edits in order amount to the munged header block. |
| Transform.Editor.SubjectPrefix | crates/carriers-core/src/builtin_policies/subject-prefix.sieve:24-40 | The script's branches amount to the rewrite: nothing if tagged, else tag ahead of the first Subject, or the tag alone. |
| Transform.Editor.ListHeaders | crates/carriers-core/src/builtin_policies/list-headers.sieve:9-28 | Inserting from the last header up to the first leaves the List-* block on top in its documented order, and the rest below untouched. |
| TransformLaws.StarMeansSomewhere | crates/carriers-core/src/builtin_policies/subject-prefix.sieve:24-27 | Section 2.7.1 of RFC 5228: a leading `*` matches if and only if the rest of the pattern matches at some later position. |
| TransformLaws.TaggedMeansAtFront | crates/carriers-core/src/builtin_policies/subject-prefix.sieve:19-29 | For a tag without wildcards the test holds if and only if the Subject starts with the bracketed tag or has it right after some colon-space. |
| TransformLaws.MatchesItself | crates/carriers-core/src/builtin_policies/subject-prefix.sieve:24-27 | A tag with `*` or `?` in it still matches itself. |
| TransformLaws.PrefixEditsIff | crates/carriers-core/src/builtin_policies/subject-prefix.sieve:24-40 | The rewrite edits if and only if no Subject is tagged, and then leaves a single Subject: the tag and the old text. |
| TransformLaws.PrefixIdempotentIff | crates/carriers-core/src/builtin_policies/subject-prefix.sieve:11-15 | A second run is a no-op on every message if and only if the bracketed tag passes the script's own test. |
| TransformLaws.PrefixIdempotent | crates/carriers-core/src/builtin_policies/subject-prefix.sieve:11-15 | Every tag without a backslash qualifies: the prefix is never stacked. |
| TransformLaws.BackslashTagStacks | crates/carriers-core/src/builtin_policies/subject-prefix.sieve:24-40 | The tag `a\b` is a concrete one for which the prefix is stacked. |
| TransformLaws.MungeReplaces | crates/carriers-core/src/builtin_policies/munge-from.sieve:10-19 | Munging leaves one From and one Reply-To with the given values, whatever was there before. |
| TransformLaws.EditsKeepTheRest | crates/carriers-core/src/pipeline.rs:323-353 | The optional edits keep every field other than Subject, From and Reply-To, in order. |
| TransformLaws.UneditedIsSuffix | crates/carriers-core/src/transform.rs:1-7 | With both DKIM-breaking edits off, the augmented copy ends in the exact bytes of the original. |
| HeaderLaws.ListBlockIsDocumented | crates/carriers-core/src/transform.rs:33-72 | The List-* block holds exactly the headers the list has values for, with those values, in the documented order; a one-click target takes the place of the plain unsubscribe link and brings its companion. |
| HeaderLaws.ListHeaderShows | crates/carriers-core/src/builtin_policies/list-headers.sieve:9-28 | Looking any List-* header up in the block gives its documented value, or nothing. |
| HeaderLaws.ListBlockSignedIff | crates/carriers-core/src/list.rs:14-41 | Every List-* header that is added is among the signed headers, as documented, if and only if the list has no one-click unsubscribe target. |
| HeaderLaws.MungeIsApplied | crates/carriers-core/src/pipeline.rs:323-336 | A requested munge is in the augmented message, under the tag and the List-* block: one From, one Reply-To, with the computed values. |
| HeaderLaws.TagIsApplied | crates/carriers-core/src/pipeline.rs:338-353 | A configured tag is in the augmented message: unless the original is tagged, one Subject, the bracketed tag and the original text, munged or not. |
| HeaderLaws.TagIsTrimmed | crates/carriers-core/src/transform.rs:132-141 | The tag is the configured text without surrounding white space; there is none exactly if no text, or only white space, is configured. |
| HeaderLaws.MungeValues | crates/carriers-core/src/transform.rs:84-118 | From names the author, else the author's address, else the list, under the list's own address; Reply-To is the author's address, else the list's. |
| Sign.SignAndSeal | crates/carriers-core/src/sign.rs:227-285 | The buffer holds the ARC set, then the list signature unless withheld, then the augmented message, byte for byte; a failure of either signer fails the whole. |
| SigningLaws.LayeringSucceedsIff | crates/carriers-core/src/sign.rs:269-285 | Preparation succeeds exactly if the sealer answers and, unless withheld, the signer does; then the layers are the three ARC fields with the sealer's values and, unless withheld, one DKIM-Signature with the signer's. |
| SigningLaws.CopyIsLayered | crates/carriers-core/src/sign.rs:269-325 | Field by field from the top, every copy is: a DKIM2 link exactly if the inbound message is in a chain and nothing asked to withhold it, the ARC set always, the list's signature exactly if no script of its after half filed into `no-dkim`, the augmented message. |
| SigningLaws.EditsShow | crates/carriers-core/src/pipeline.rs:321-360 | In every copy: munged exactly if some script of its after half asked for it, tagged if a tag is configured, otherwise the original fields under the List-* block; the body is the original's. |
| SigningLaws.SentCopiesAreSigned | crates/carriers-core/src/sign.rs:227-285 | Over every run: each copy sent is layered in that way by the step that sent it, so it carries the list's signature if and only if no script of its after half, the gate included, filed into `no-dkim`. |
| Sign.NotSigned | crates/carriers-core/src/list.rs:14-41 | None of the header names that signing adds is among the signed headers, in any letter case. |
| Sign.LayersUnsigned | crates/carriers-core/src/sign.rs:269-284 | No layer above the augmented message, the per-recipient link included, carries a name that the list signs. |
| Sign.SelectionSurvivesLayers | crates/carriers-core/src/list.rs:14-41 | Any `h=` list drawn from the signed headers selects the same fields with and without layers of unsigned fields on top. |
| Pipeline.LoopRun | crates/carriers-core/src/builtin_policies/loop.sieve:6-10 | The loop script drops a message if and only if one of its List-Id fields contains the list's id, ignoring case. |
| Pipeline.DuplicateRun | crates/carriers-core/src/builtin_policies/duplicate.sieve:4-8 | The duplicate script drops a message if and only if it has a Message-ID that the list has seen, and records the id of any message that has one. |
| DispositionLaws.LoopIff | crates/carriers-core/src/builtin_policies/loop.sieve:6-10 | A message is dropped as a loop exactly if one of its List-Id fields contains the list's id at some position, ignoring case. |
| Pipeline.Daemon.MembershipSetsFor | crates/carriers-core/src/pipeline.rs:245-263 | Each role set holds exactly the addresses of the list whose own flag is set. |
| Pipeline.Daemon.Hold | crates/carriers-core/src/pipeline.rs:219-239 | One new queue row with the original envelope and bytes; the result names its id. |
| Pipeline.Daemon.Screen | crates/carriers-core/src/pipeline.rs:112-134 | A loop or a repeated Message-ID is dropped with its reason and changes nothing; any other message has its id recorded. |
| Pipeline.Daemon.Intake | crates/carriers-core/src/pipeline.rs:95-201 | Intake in order: parse, loop, duplicate, verdict, before half, then finalize, hold, discard or reject; writes nothing but the id and, if held, the row. |
| Pipeline.Daemon.Finalize | crates/carriers-core/src/pipeline.rs:273-407 | The after half with its own verdict, and its four results; only a hold writes, and only one row. |
| Pipeline.Daemon.Prepare | crates/carriers-core/src/pipeline.rs:313-395 | The prepared message: edits in order, layers on top, recipients from the subscribed and enabled rows, and the diff baseline only if the DKIM2 chain is to be extended. |
| Pipeline.Daemon.SendAll | crates/carriers/src/deliver.rs:45-75 | One copy per recipient in order, each with its own return path and link; counts the accepted ones and stops at a signing failure. |
| Pipeline.Daemon.Deliver | crates/carriers/src/deliver.rs:20-43 | No connection for an empty recipient list, an error without one otherwise, else every recipient in turn. |
| Pipeline.Daemon.HandleOne | crates/carriers/src/smtp.rs:339-373 | An inbound post is settled as its disposition says, and an unparseable one is accepted and dropped. |
| Pipeline.Daemon.Settle | crates/carriers/src/smtp.rs:364-404 | Delivers exactly what is to be distributed, and settles the post at most once. |
| Pipeline.Daemon.Approve | crates/carriers/src/main.rs:501-525 | A moderator's approval: finalize and deliver with the stored envelope, then delete the entry, which stays if anything failed. |
| Pipeline.Daemon.Reject | crates/carriers/src/main.rs:541-548 | Deletes that entry only, and says whether there was one. |
| Pipeline.Daemon.HandleBounce | crates/carriers/src/smtp.rs:305-330 | A failure report charges its weight to the member; anything else changes nothing. |
| Lifecycle.LogGrows | crates/carriers/src/smtp.rs:339-405 | The log of a run only grows: by one step's copies, then by at most one settlement. |
| Lifecycle.PostTables | crates/carriers-core/src/pipeline.rs:106-201 | A post writes its id if it passes the built-in checks, and queues itself if and only if it ends held. |
| Lifecycle.PostScreened | crates/carriers-core/src/pipeline.rs:106-134 | A message that does not parse, loops or repeats is never sent or held: it ends discarded. |
| Lifecycle.ApprovalTables | crates/carriers/src/main.rs:501-548 | A successful approval consumes its entry, and adds a new one if and only if it ends held again; a failed one leaves the tables as they were. |
| DispositionLaws.ContextShows | crates/carriers-core/src/sign.rs:64-79 | Every policy script sees the list's name and id, all six facts of the verdict, the envelope sender and the message. |
| DispositionLaws.PostEnds | crates/carriers-core/src/pipeline.rs:170-201 | A post that the before half does not approve ends held under the next id, discarded, refused with the reason, or failed, as the outcome says; nothing goes out. |
| DispositionLaws.PostQueue | crates/carriers-core/src/pipeline.rs:185-194 | A queue row appears for a post exactly if it ends held, and it is the post's own. |
| DispositionLaws.FirstStopDecides | crates/carriers-core/src/policy.rs:836-846 | The first before drop-in that stops the chain decides, read off its own events: its discard drops the post, its reject refuses it with that reason, its failure fails it; no copy, no queue row. |
| DispositionLaws.FinalizationEnds | crates/carriers-core/src/pipeline.rs:312-407 | What the after half does not approve ends held, discarded, refused or failed, as its outcome says, for posts and approvals alike; nothing goes out. |
| DispositionLaws.CopiesMeanApproval | crates/carriers-core/src/pipeline.rs:170-183 | Copies are sent only by a step that both halves approve, or the after half alone for a moderator's approval. |
| DispositionLaws.UnknownApproval | crates/carriers/src/main.rs:503-513 | Approving an id that is not in the queue, or whose list is not loaded, fails, changes nothing and sends nothing. |
| Lifecycle.ReachedWellFormed | crates/carriers-core/src/store.rs:96-120 | In every run: stored addresses are canonical and live ids are positive and never past the counter. |
| Lifecycle.QueueIdsNeverReused | crates/carriers-core/migrations/0001_init.sql:22-32 | Between any two points of any run: an id handed out by the first names at the second the very same row, or none. |
| Lifecycle.QueueKeepsOriginals | crates/carriers-core/src/pipeline.rs:396-401 | However often an entry is held again, every live row is that of some post of the run, bytes and envelope unchanged. |
| DeliveryLaws.GateReadsVerdict | crates/carriers-core/src/sign.rs:64-79 | What the gates read from the environment is the verdict: pass or not, enforcement requested or not. |
| DeliveryLaws.FinalizedIsSafe | crates/carriers-core/src/pipeline.rs:287-395 | Anything finalization prepares satisfies the gate for the verdict of that very finalization. |
| DeliveryLaws.EnforcedFailureRefused | crates/carriers-core/src/pipeline.rs:139-199 | A post that fails DMARC against an enforcing domain is refused at intake: no copy, no queue entry. |
| DeliveryLaws.CopiesFollowRecipients | crates/carriers/src/deliver.rs:50-67 | The copies are those of the first recipients in order, all of them unless an error ended delivery. |
| DeliveryLaws.StepCopiesSafe | crates/carriers-core/src/pipeline.rs:312-395 | Every copy of a step is safe, is accounted for by that step's own verdict, and goes to a deliverable subscriber; no subscriber gets two from one step. |
| DeliveryLaws.DistributedReachesAll | crates/carriers-core/src/store.rs:167-177 | A complete delivery reaches exactly the subscribed, enabled members, once each, in address order. |
| MemberLaws.CopiesToReceivers | crates/carriers-core/src/store.rs:167-177 | Every copy of every step goes to a member whose row is there, subscribed and not disabled at that step. |
| MemberLaws.CompleteDeliveryServes | crates/carriers-core/src/store.rs:167-177 | A complete delivery serves an address if and only if its row is there, subscribed and not disabled. |
| MemberLaws.ReportedCount | crates/carriers/src/deliver.rs:49-74 | The count that is reported is the number of those members whose copy the smarthost accepted. |
| MemberLaws.DeliveryFailsIff | crates/carriers/src/deliver.rs:20-67 | Delivery fails exactly if there is someone to deliver to and the smarthost cannot be reached or some link of a DKIM2 chain cannot be signed; a refused copy is no failure. |
| DeliveryLaws.NoUnauthenticatedSigning | crates/carriers-core/src/pipeline.rs:265-388 | In every run, with arbitrary scripts and verdicts that may change between steps: a copy was sent only if the verdict of its own finalization passed or asked for no enforcement, and it carries the list's DKIM-Signature or a DKIM2 link only if that verdict passed. |
| DeliveryLaws.AuthorSignatureSurvives | crates/carriers-core/src/sign.rs:199-203 | With munging and tag off, a sent copy ends in the exact inbound bytes, keeps the body, and an author's `h=` list selects the same fields in it as in the original if and only if it does not oversign an added name. |
| DeliveryLaws.OversignedListId | crates/carriers-core/src/list.rs:16-20 | Where that condition fails: an author who oversigns `List-Id` on a message without one finds the list's own field selected in every unedited copy. |
| DeliveryLaws.OwnSignaturesIndependent | crates/carriers-core/src/list.rs:14-20 | The list's DKIM signature and the ARC message signature select in the delivered copy what they selected in the augmented message. |
| DeliveryLaws.CopyCarriesListId | crates/carriers-core/src/transform.rs:57 | Every copy carries its list's id in a form that the loop check recognises. |
| DeliveryLaws.ReturnedCopyDropped | crates/carriers-core/src/builtin_policies/loop.sieve:1-10 | Mail loops are cut: a copy that comes back to its list and is read back as written is dropped, neither recorded nor held nor sent. |
| OnceLaws.DistributedAtMostOnce | crates/carriers-core/src/pipeline.rs:122-134 | For every list and Message-ID, in every run: live queue entries plus distributions plus posts whose delivery broke off are at most one, and none while the pair is unseen. |
| OnceLaws.RepostIsDropped | crates/carriers-core/src/pipeline.rs:122-134 | Once a post of a run has passed the built-in checks, every later post of its list and Message-ID is discarded, however the first one ended. |
| OnceLaws.TakenAgainIff | crates/carriers-core/src/builtin_policies/duplicate.sieve:1-8 | Once a post of a run has passed the built-in checks, the same post passes them again at any later point if and only if it has no Message-ID. |
| OnceLaws.SeenIffEntered | crates/carriers-core/src/pipeline.rs:203-216 | In every run: a list and Message-ID are recorded if and only if some post of that pair has passed the built-in checks. |
| OnceLaws.DuplicateIff | crates/carriers-core/src/pipeline.rs:122-134 | A message is dropped as a duplicate if and only if it is no loop, has a Message-ID, and an earlier post of the run with that list and id passed the built-in checks: a first post is never dropped. |
| OnceLaws.OnceApproval | crates/carriers/src/main.rs:501-540 | One approval keeps that balance, whether it distributes, holds again, discards, rejects or fails. |
| OnceLaws.CopiesStep | crates/carriers/src/deliver.rs:50-67 | A step hands over exactly one copy of a message to each subscriber it serves, and none to others. |
| OnceLaws.CopiesBounded | crates/carriers/src/deliver.rs:50-67 | Copies of one message to one subscriber are at most its distributions plus its posts and approvals that broke off part way. |
| OnceLaws.OneCopyUnlessInterrupted | crates/carriers/src/main.rs:522-525 | A subscriber gets a message at most once, plus once for each approval whose delivery failed after copies had gone out; never while the id is unseen. A post that failed in that way adds nothing. |
| OnceLaws.InterruptedPostIsFinal | crates/carriers/src/smtp.rs:364-368 | A post whose delivery broke off leaves no queue entry and is never distributed. |
| OnceLaws.ReapprovalServesAgain | crates/carriers/src/main.rs:522-525 | An approval whose delivery broke off leaves its entry and the tables as they were, so the id can be approved again; if that approval goes through, every subscriber already served gets a second copy. |
| OnceLaws.SecondCopyFollows | crates/carriers/src/main.rs:522-525 | And there always is such an approval: repeating it with a signer that answers and a smarthost that accepts sends the second copy, with no further condition. |
| Resend.SecondCopyGoesOut | crates/carriers/src/main.rs:501-525 | A concrete run in which some subscriber gets the same message twice: hold, broken-off approval, approval. |
| Ledger.LedgerIsExact | crates/carriers-core/src/store.rs:208-243 | In every run, for any weights and threshold: the score is the sum of the charges since the last insertion or enabling, and delivery is disabled if and only if one of those charges brought the sum to the threshold. |
| Ledger.ScoreDisablesIff | crates/carriers-core/src/store.rs:203-220 | The documented promise: in every run a score at the threshold means disabled, if and only if the threshold is positive, whatever the weights. |
| Ledger.FlagAgreesIff | crates/carriers-core/src/store.rs:208-220 | In every run delivery is disabled exactly while the score is at the threshold, if and only if the threshold is positive and the two weights do not have opposite signs. |
| Ledger.DisabledIffScore | crates/carriers-core/src/store.rs:203-220 | The direction a caller uses: with a positive threshold and weights that are not of opposite signs, flag and score agree. |
| Ledger.MixedSignsDiverge | crates/carriers-core/src/store.rs:217-219 | The smallest run in which they part under a positive threshold: at threshold 1 and weights 1 and -1, one report of each kind ends disabled with score 0. |
| Ledger.HardBouncesDisableAt | crates/carriers/src/smtp.rs:311-323 | Permanent failures alone disable delivery from the ceil(threshold / hard weight)-th on, not before. |
| MemberLaws.DisabledGetsNothing | crates/carriers-core/src/store.rs:168-243 | From the moment a member is disabled on, no copy goes to it through any further steps other than its enabling or removal, and it stays disabled. |
| MemberLaws.HardBouncesStopMail | crates/carriers/src/smtp.rs:303-323 | From the ledger to the mail: after the ceil(threshold / hard weight)-th permanent failure no further copy goes to the member until it is enabled, or removed. |
| AttributionLaws.ReportIsWeighed | crates/carriers/src/smtp.rs:311-319 | What a report is charged, read off its lines: the hard weight if its first status line of class 4 or 5 is of class 5, the soft weight if of class 4, nothing if there is none. |
| Ledger.ZeroThresholdDiverges | crates/carriers-core/src/store.rs:219 | With a threshold of zero or less a fresh member is at the threshold and yet not disabled. |
| Ledger.MembersStep | crates/carriers-core/src/store.rs:92-243 | Posts and moderator actions leave the members table alone; the other steps do to it what their statement says. |
| Verps.FirstMark | crates/carriers-core/src/pipeline.rs:77 | The marker cannot overlap itself: the first occurrence is the one written, unless the local part has one of its own. |
| Verps.DecodeRecipient | crates/carriers-core/src/pipeline.rs:78-81 | The recipient comes back if and only if it has an `@` and no `=` after its first one. |
| Verps.VerpRoundTrip | crates/carriers-core/src/pipeline.rs:65-83 | Decoding an encoded address gives back list address and recipient if and only if the domain has no `@`, the local part has no marker, and the recipient is attributable. |
| Verps.VerpFormat | crates/carriers-core/src/pipeline.rs:60-68 | The documented format: local part, marker, user, `=`, host, list domain. |
| Verps.VerpInjective | crates/carriers-core/src/pipeline.rs:65-68 | Distinct attributable recipients of a list never share a return path. |
| Bounces.Classify | crates/carriers-core/src/bounce.rs:28-53 | The scan gives what the first deciding line decides, over the lines of the text. |
| Bounces.LineKindIff | crates/carriers-core/src/bounce.rs:30-50 | A line decides if and only if it has the shape white space, `status:` in any case, white space, class digit, dot. |
| Bounces.UnknownIff | crates/carriers-core/src/bounce.rs:17-21 | A text is not a failure report if and only if none of its lines is a status line of class 4 or 5. |
| Bounces.TrailingCr | crates/carriers-core/src/bounce.rs:30-37 | A CR left at the end of a line never changes what the line decides. |
| Bounces.ClassifyConcat | crates/carriers-core/src/bounce.rs:28-53 | Classifying two texts joined by an LF: the first decides, unless it decides nothing, and then the second. |
| ReplyLaws.LinesCons | crates/carriers-core/src/bounce.rs:29-30 | What a line of a text is: everything up to an LF, without a CR right before it; the rest follows. |
| Recipients.LoadedIsWellKeyed | crates/carriers/src/state.rs:118-121 | Whatever was loaded sits under its own lowercased posting address. |
| Recipients.FoundIffTrimmed | crates/carriers/src/state.rs:62-65 | A loaded list that holds its key is found under some address if and only if its posting address has no white space around it. |
| PostingLaws.PostsIff | crates/carriers/src/smtp.rs:201-214 | An address posts to a list if and only if, trimmed and lowercased, it is the list's lowercased posting address, and it does not decode to a return path of a loaded list. |
| PostingLaws.BouncesIff | crates/carriers/src/smtp.rs:203-210 | An address is a bounce for a member of a list if and only if it decodes to that member and to a base that finds the list. |
| PostingLaws.UnknownRecipientIff | crates/carriers/src/smtp.rs:201-214 | An address is unknown if and only if it is neither a return path of a loaded list nor the key of one. |
| PostingLaws.PostingAddressPosts | crates/carriers/src/state.rs:62-65 | Every trimmed posting address without the marker posts to its list, in any letter case. |
| Recipients.ReturnPathAttributes | crates/carriers/src/smtp.rs:202-214 | The return path of a copy resolves to a bounce of that list for that recipient if and only if the posting address is trimmed, has one `@` and no marker, and the recipient is attributable. |
| AttributionLaws.RecipientsCanonical | crates/carriers-core/src/store.rs:168-177 | In every run copies go to canonical addresses only. |
| AttributionLaws.ChargesOnlyItsRow | crates/carriers-core/src/store.rs:208-230 | A failure report charges the row it names and no other, and anything else changes nothing at all. |
| AttributionLaws.BounceFindsItsRow | crates/carriers/src/smtp.rs:202-210 | For any copy of any run from an attributing list to an attributable recipient: its return path resolves to that list and that subscriber. |
| AttributionLaws.BounceChargesItsRow | crates/carriers/src/smtp.rs:288-330 | End to end: a message handled for such a return path charges that subscriber's row if it is a failure report and the row is still there, and changes nothing else. |
| AttributionLaws.SubmittedBounceChargesItsRow | crates/carriers/src/smtp.rs:84-330 | All the way from the wire, after anything the daemon has done in between: a client that submits a report to a copy's return path leaves the state with that subscriber's row charged and nothing else changed. |
| PostingLaws.SubmittedPostIsPosted | crates/carriers/src/smtp.rs:84-232 | The posting counterpart: a client that submits a message to an address that reaches a list has exactly that message posted to exactly that list, with its own address, greeting and sender. |
| Framing.Reader.ReadUntilLf | crates/carriers/src/smtp.rs:84-88 | One read takes the bytes up to and including the first LF, or all that is left. |
| Framing.Reader.ReadData | crates/carriers/src/smtp.rs:409-428 | Reads up to a terminator line or the end of the stream, takes one leading dot off each line, and leaves everything after the terminator. |
| Framing.FramingRoundTrip | crates/carriers/src/smtp.rs:407-428 | Reading a dot-stuffed message (section 4.5.2 of RFC 5321), its terminator and any further bytes gives back the message and leaves exactly those bytes, if and only if the message ends its last line. |
| Framing.UnterminatedSwallowsEnd | crates/carriers/src/smtp.rs:416-427 | What is read otherwise, for every message whose last line is open: the message, the terminator, and everything up to the next terminator, as one message. |
| Framing.EndOfStreamReads | crates/carriers/src/smtp.rs:417-419 | A stream that ends without a terminator: the dot-stuffed message is read back whole all the same, for every message. |
| Framing.EndUnseenIff | crates/carriers/src/smtp.rs:414-423 | A terminator sent after what has come in makes no difference to what is read if and only if none has come in yet and the last line is complete. |
| Framing.NormalizeCrlf | crates/carriers-testkit/src/sender.rs:188-208 | The index loop computes the normalisation. |
| Framing.NormalizeIsCrlf | crates/carriers-testkit/src/sender.rs:185-188 | The output has no bare CR and no bare LF. |
| Framing.NormalizeFixedIff | crates/carriers-testkit/src/sender.rs:185-188 | The input is left alone if and only if it has no bare CR or LF; a second pass changes nothing. |
| Framing.NormalizeKeepsLines | crates/carriers-testkit/src/sender.rs:185-188 | The sequence of line contents is unchanged. |
| Framing.SubmissionRoundTrip | crates/carriers/src/smtp.rs:407-428 | Normalised, stuffed, sent and read back is the normalised input, if and only if the input ends a line. |
| Sessions.HandleConnection | crates/carriers/src/smtp.rs:65-193 | The session loop over its mutable variables does and writes exactly what the behaviour of the input prescribes, and ends: every round consumes a line. |
| Sessions.Process | crates/carriers/src/smtp.rs:217-232 | The recipients are handled in order on one evolving state, one reply each. |
| Sessions.PostAndReply | crates/carriers/src/smtp.rs:234-270 | One post is handled, and answered according to its result. |
| Sessions.AnswerFor | crates/carriers/src/smtp.rs:150-165 | Over LMTP all replies in order; over SMTP one of two fixed lines. |
| Sessions.SanitizeReply | crates/carriers/src/smtp.rs:275-286 | The reply text computed character by character. |
| SessionLaws.SubmissionsHaveSender | crates/carriers/src/smtp.rs:113-146 | Whatever the peer sends, no message is handed on without a sender from MAIL and a known recipient, so the default sender is never used. |
| SessionLaws.SanitizeIsSafe | crates/carriers/src/smtp.rs:272-286 | A sanitised reason is one line of at most 200 characters and never blank, and text that is already so is kept. |
| SessionLaws.SanitizeKeepsText | crates/carriers/src/smtp.rs:275-286 | Unless they are blank, the first 200 characters are kept, each CR and LF made a space. |
| SessionLaws.PostReplyTellsResult | crates/carriers/src/smtp.rs:234-270 | For any rejection reason: one CRLF line, 2xx unless the post was refused (5xx) or failed (4xx). |
| SessionLaws.RepliesInOrder | crates/carriers/src/smtp.rs:150-154 | One reply per envelope recipient (section 4.2 of RFC 2033): the first k replies are those of the first k recipients alone. |
| SessionLaws.RepliesAreLines | crates/carriers/src/smtp.rs:217-232 | Each of those replies is exactly one CRLF line, for any rejection reason. |
| ReplyLaws.RepliesAnswer | crates/carriers/src/smtp.rs:216-232 | For any recipients and any k: the k-th reply is 5xx exactly if the k-th recipient's post, in the state the first k leave, ends rejected, and then carries the reason; 4xx exactly if it fails; 2xx otherwise; a bounce is answered 2xx. |
| ReplyLaws.RepliesAreTheLines | crates/carriers/src/smtp.rs:150-154 | What is written over LMTP has one line per reply, in the order of the replies. |
| ReplyLaws.DataIsAnswered | crates/carriers/src/smtp.rs:130-169 | What the session writes after DATA, in terms of how the posts end: over LMTP a line for each recipient in turn that answers it, over SMTP one line, 2xx exactly if some recipient succeeded; and the state it goes on from. |
| ReplyLaws.RequestAnswered | crates/carriers/src/smtp.rs:91-190 | Which other requests succeed: RCPT exactly under a sender and for a known recipient; greetings, MAIL, RSET, NOOP and QUIT always; the rest never. |
| ReplyLaws.RequestsForget | crates/carriers/src/smtp.rs:92-112 | Greetings and RSET drop the transaction under way and MAIL starts over: what is handed on afterwards does not depend on what was named before. |
| ReplyLaws.RcptCounts | crates/carriers/src/smtp.rs:113-129 | A RCPT counts exactly under a sender and for a known recipient, and then goes to the end of the recipients. |
| SessionLaws.SmtpReplyIff | crates/carriers/src/smtp.rs:155-165 | Over SMTP one line, 2xx if and only if some recipient was answered with one. |
| SessionLaws.RefusalOverSmtp | crates/carriers/src/smtp.rs:155-165 | A policy's refusal reaches the peer as 5xx over LMTP only; over SMTP it reads as a temporary failure. |
| SessionLaws.SessionIsRun | crates/carriers/src/smtp.rs:130-169 | Whatever a peer sends, a session takes the daemon from a reachable state to a reachable state, so every law about runs covers sessions. |
| SessionLaws.EndOfStreamHandsOn | crates/carriers/src/smtp.rs:137-148 | A peer that goes away inside DATA has its message handed on as if it were complete; the session behaves the same with the terminator if and only if the last line is complete. |
| SessionLaws.OneMailing | crates/carriers/src/smtp.rs:108-169 | One well-formed transaction, from any session variables, hands on exactly itself and leaves the session ready for the next. |
| SessionLaws.SessionRoundTrip | crates/carriers/src/smtp.rs:84-191 | For any pipelined sequence of well-formed transactions the session hands on exactly that sequence: sender, known recipients in order, message. |
| SessionLaws.MailingsAreRun | crates/carriers/src/smtp.rs:84-232 | From bytes to state: a pipelined sequence of well-formed transactions takes a reachable state to the one reached by exactly their posts and bounces, in order. |

## Left out

- AuthorSignatureSurvives: assumes that the field view of a message writes back to the same bytes (`Faithful`), as `crates/carriers-core/src/sieve_engine.rs:156-158` says of the script runtime; it covers which fields and which body a signature reads, not hashes or canonicalisation.
- ReturnedCopyDropped: assumes that the returning copy is read back as the fields that were written; a relay that rewrites `List-Id` is outside it.
- QueueKeepsOriginals: assumes that peer addresses are kept in the text form they are stored in, so that a stored one reads back as itself; an unreadable stored address falls back to 127.0.0.1 as in the code.
- SessionRoundTrip: the request parser is an arbitrary function, and the client is any printer whose lines that parser reads back; each transaction needs a known recipient, since after a refused DATA the message lines are read as commands.
- Storage.Store.RecordBounce: scores and weights are real numbers, so rounding of 64-bit floats is not modelled; `last_bounce_at` is not kept.
- FlagAgreesIff: takes one report of each kind as given, since the decoding of bytes to text is an arbitrary function.
- Storage.Store.EnqueueHeld: ids are unbounded integers, without SQLite's largest row id.
- Pipeline.Daemon.Intake: the copy that a before script asks to have archived is not written; the write is best effort in the code and has no bearing on the disposition.
- Pipeline.Daemon.Finalize: the same for an after script's archive copy; and the edited message is handed from one edit to the next as fields, not written out and parsed again between them.
- Pipeline.Daemon.Approve: moderator actions are sequential steps; crashes between finalizing and deleting, and two approvals of one id at once, are not modelled, as the code gives no atomicity there.
- Sign.SignAndSeal: ARC, DKIM and DKIM2 header values come from the signing library as arbitrary text under their header names; an ARC set is three fields and a DKIM2 link is one.
- SPF, DKIM, DMARC, ARC and DNS evaluation: library calls, replaced by an arbitrary verdict at every evaluation.
- The Sieve compiler and runtime: a script in its context is a finite tree of events; the built-in posting policies (`open`, `subscribers`, `posters`, `moderated`) are covered as arbitrary scripts.
- Decoding of encoded words and folding white space in the header tests of the scripts: a field's decoded value is given.
- Database errors, and with them the 451 reply to a bounce that cannot be recorded; time stamps in the tables.
- Discovery of scripts and list files, key loading, zone-file output, the other command-line subcommands, member seed files: they would only add easy members.
- Sockets, TLS, socket activation, scheduling and logging.
- The testkit apart from its CRLF normalisation.
