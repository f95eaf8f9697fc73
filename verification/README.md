# Verification of linkerd2-proxy-init

This project models the parts of linkerd2-proxy-init whose correctness is hardest to see from the
code, and proves properties of them with Dafny 4.11. `dafny verify dfyconfig.toml` checks everything.

There are four parts.

- **The iptables compiler and its executor** (`Text`, `PortRanges`, `Multiport`, `NatTable`,
  `SavedTable`, `Firewall`, `ConfigureFirewall`, `HookMeaning`, `Printability`, `Reconfigure`,
  `Cleanup`, `RootOptions`). A firewall configuration and the text of the current nat table are compiled
  into commands, which change the kernel's table one by one. The model has the table as a map from chain
  to rules, an interpreter of the commands, the text `iptables-save` prints with the four patterns that
  read it back, and the first-match walk of a packet with jumps, RETURN and REDIRECT. Proved: what the
  table means for every packet afterwards; when all commands succeed; what holds after each single
  command; repeated runs, also after one that was cut short; exactly when cleanup succeeds and what it
  restores; and exactly when packing ignored ports into multiport lists is optimal.
- **The CNI installer** (`CniConfig`, `CniPaths`, `CniMachine`, `CniInvariant`, `CniTermination`,
  `CniRecovery`, `CniProvenance`, `CniRemoval`, `CniProgress`, `CniHandlers`, `CniStartup`,
  `CniInstaller`). A process watches a directory and rewrites each CNI configuration in it, which
  triggers its own watch. The model is a state machine over file-system steps, with external writers,
  failing operations, crashes and restarts, and a class whose methods are those of the Go `installer`
  and go through exactly the machine's states. Proved: from every reachable state the loop terminates;
  what each event does; what every run leaves at quiescence; crash recovery; which external version
  survives or which deletion stands, and that it is reached; and that removal undoes installation.
- **The repair controller** (`Repair`): a producer and a consumer over a bounded queue that drops what
  does not fit, with counters that balance in every reachable state.
- **Two parsers** (`PortRanges`, `Timeout`): their exact acceptance sets over texts of any length, with
  Go's and Rust's 64-bit arithmetic modelled as it is.

Code that linkerd2-proxy-init writes as loops and updates in place is modelled by methods, which are
proved against functions; the lemmas are about those functions. In `CniMachine` and `Repair` the state
holds some history (`origin`, `written`, `qualifying`, `attempts`, `tally`) that the programs do not
have: it is there for the statements only.

## What the code does not do

Six expected properties are false of the code. For each, the exact condition under which the code does
meet it is proved, for all inputs.

- **Packing is optimal** fails for a non-empty ignore list without a valid entry, which is packed into
  one empty chunk (`BadEntryCostsACommand`). The chunk count is the least possible exactly when the list
  is empty or holds a valid entry (`PackingIsOptimal`); otherwise iptables refuses the empty `--dports`
  and configuration stops there (`ConfigureSucceedsExactly`).
- **Jumps are read back faithfully** fails because the patterns are not anchored at the end of a line: a
  comment that quotes a jump, or a jump to a chain whose name extends ours, is taken for our jump
  (`JumpPatternCanBeFooled`). Reading is faithful exactly when the jump is there or no rule of the hook
  reads as one (`JumpPatternFaithful`), and a rule does so exactly when its target's text begins with
  our chain's name, or its matches or its target's own text hold the jump text at the start or after a
  space (`ReadsByParts`).
- **Each hook ends with exactly one jump** fails where a rule of the hook reads as our jump: then none
  is installed. It holds exactly otherwise (`OneJumpPerHook`; a concrete table in
  `QuotingTableDefeatsBoth`). The last configuration wins nevertheless, on every table.
- **Cleanup undoes configuration** fails on the same tables, where its first or second command is
  refused. It succeeds, and then restores the table, exactly when neither hook held such a rule
  (`CleanupInverts`); the condition on any table whatever is in `CleanupSucceedsExactly`.
- **Revert undoes injection** fails when the list held two or more linkerd entries: revert removes an
  older one and leaves the injected one (`RevertCanLeaveInjected`). The exact condition is in
  `RevertUndoesInjectionExactly`.
- **The last external version survives** fails when a `.conflist` is written while the `.conf` of the
  same name waits to be rewritten: it ends as the version of the `.conf` in every run
  (`LastExternalVersionWins`), and there is such a run for any two versions that differ in more than
  linkerd entries (`WriteCanBeLost`). A write survives exactly when no `.conf` of its name waited or
  that one said the same (`WriteSurvivesExactly`).

The comment on `IsValidPort` (`pkg/util/portrange.go:15-16`) gives the range 1 to 65535; the code
accepts 0, and so does the model.

## Model

| member | source | states |
|---|---|---|
| Text.ItoaDigits | pkg/iptables/iptables.go:333-360 | numerals are printed in base ten, the most significant digit first |
| PortRanges.AtoiExact | pkg/util/portrange.go:41-45 | the standard library's decimal conversion, with its unchecked fast path and its overflow tests, yields exactly the denoted number when that fits 64 bits and fails otherwise |
| PortRanges.ParsePortRange | pkg/util/portrange.go:32-53 | a parsed range has both bounds within 0 to 65535 and in order |
| PortRanges.ParsePortRangeSound | pkg/util/portrange.go:32-53 | an accepted text is one or two optionally plus-signed decimals around at most one dash, and the result is what they denote |
| PortRanges.ParsePortRangeComplete | pkg/util/portrange.go:32-53 | every such text with bounds up to 65535 and in order is accepted, with exactly that range |
| PortRanges.ParsePortRangeExact | pkg/util/portrange.go:32-53 | the acceptance set in both directions, with unbounded magnitudes, so 64-bit overflow never changes the answer |
| PortRanges.ParsePortRangePrinted | pkg/iptables/iptables.go:447-454 | printing any valid range as a destination and parsing it, colon read as dash, gives it back |
| PortRanges.WithoutDash | pkg/util/portrange.go:34-44 | every text without a dash: a decimal up to 65535 is that one port, anything else is refused as a lower bound |
| PortRanges.WithOneDash | pkg/util/portrange.go:34-51 | every text with one dash: the range of its two sides, or the first of the three errors that applies |
| PortRanges.WithMoreDashes | pkg/util/portrange.go:34-36 | every text with more is refused |
| PortRanges.ParsePortRangeOfNumbers | pkg/util/portrange.go:32-53 | for all numbers a and b, which of `a`, `+a` and `a-b` parse, and to what |
| PortRanges.DestinationParts | pkg/iptables/iptables.go:447-454 | a printed range is its lower and its upper bound around a colon, or the one port |
| Timeout.ParsedTextIsSpelled | validator/src/main.rs:217-242 | an accepted text, trimmed, is an optional plus, digits and a known unit (or no unit for zero), with magnitude and millisecond product below 2^64 |
| Timeout.ParseTimeoutExact | validator/src/main.rs:217-242 | acceptance holds exactly for those texts, and the result is the duration they spell, where s, m, h and d are worth 1000, 60000, 3600000 and 86400000 milliseconds |
| Timeout.CompoundFormsFail | validator/src/main.rs:219-223 | a digit anywhere after a non-digit of the trimmed text is an error, unless that non-digit is a plus in first position |
| Timeout.EqualDurationsAgree | validator/src/main.rs:225-241 | two fitting spellings give equal results exactly when they stand for equal durations |
| Timeout.ParseTimeoutPrinted | validator/src/main.rs:217-242 | every printed magnitude and unit that fits parses back to its duration |
| Timeout.TimeoutOfNumber | validator/src/main.rs:225-241 | for every number: ms stands for 1, s for 1000, m for 60000, h for 3600000 and d for 86400000 milliseconds, up to 2^64; zero needs no unit; any other unit is refused |
| Timeout.NoDigitsExactly | validator/src/main.rs:219-221 | a text is refused for want of digits exactly when it holds none |
| Timeout.BlanksChangeNothing | validator/src/main.rs:218 | blanks, tabs and line ends around a text change nothing |
| Timeout.PlusChangesNothing | validator/src/main.rs:223 | nor does one plus sign before the number |
| Multiport.MakeMultiportDestinations | pkg/iptables/iptables.go:278-306 | the loop yields the printed chunks of the greedy packing of the valid entries, and no list holds more than 15 port references, counted in its text |
| Multiport.PackingConserves | pkg/iptables/iptables.go:281-305 | concatenated chunks are the valid entries in order, each chunk holds at most 15 references, all but the last at least 14, and none is empty when some entry is valid |
| Multiport.DportsFillTheLimit | pkg/iptables/iptables.go:288-300 | counted by the commas and colons of its text, no `--dports` list holds more than 15 port references, and all but the last hold at least 14 |
| Multiport.WeightIsReferences | pkg/iptables/iptables.go:288-292 | the count the packer goes by is that of the printed text: one for a port, two for a range |
| Multiport.PackStaysAhead | pkg/iptables/iptables.go:293-300 | against any order-preserving split within the limit the packer never has more chunks, nor with as many a heavier open one |
| Multiport.PackingIsOptimal | pkg/iptables/iptables.go:278-306 | the chunk count is the least of all order-preserving splits, exactly when the list is empty or some entry is valid |
| Multiport.BadEntryCostsACommand | pkg/iptables/iptables.go:281-305 | a list whose one entry is no port makes one empty chunk, which is one more than the least possible |
| Multiport.ReadDportsPrinted | pkg/iptables/iptables.go:384-394 | the joined text of a chunk reads back as the chunk, and that of an empty chunk is no valid argument |
| Multiport.PackingCovers | pkg/iptables/iptables.go:264-306 | the joined texts, read back, cover a port exactly when some valid entry of the list does |
| NatTable.SubnetIsRange | pkg/iptables/iptables.go:396-405 | source matching by leading bits (section 3.1 of RFC 4632) accepts exactly the aligned run of addresses of the prefix |
| NatTable.ExecAllConcat | pkg/iptables/iptables.go:90-102 | running two command lists one after the other: the second runs from the first's table if that succeeded, and not at all otherwise |
| NatTable.WalkUniform | pkg/iptables/iptables.go:373-427 | rules with one common target act as a single rule that matches when any of them does |
| SavedTable.ChainPatternFaithful | pkg/iptables/iptables.go:42-43 | on the printed text of any table the chain patterns match exactly when the chain exists |
| SavedTable.JumpPatternByLine | pkg/iptables/iptables.go:40-41 | the jump pattern is the regular expression: some line is the hook's start, an optional group that ends in a space, the jump, and anything |
| SavedTable.JumpPatternByRule | pkg/iptables/iptables.go:40-41 | on the printed text of any table the jump patterns match exactly when some rule of that hook reads as a jump |
| SavedTable.JumpIsRead | pkg/iptables/iptables.go:40-41 | an existing jump is never missed, whatever matches and comment precede it |
| SavedTable.ReadsByParts | pkg/iptables/iptables.go:40-41 | a rule reads as a jump to the chain exactly when the text of its target begins with the chain's name, or its matches and comments, or that text itself, hold the jump text at the start or after a space |
| SavedTable.JumpPatternFaithful | pkg/iptables/iptables.go:40-41 | the jump patterns never miss a jump, and match exactly when the jump exists if and only if it does exist or no rule of the hook has a part that reads as one |
| SavedTable.UnmistakableJumps | pkg/iptables/iptables.go:40-41 | rules whose matches and comments do not hold the jump text, and whose targets do not extend our chain's name, are read exactly |
| SavedTable.JumpPatternCanBeFooled | pkg/iptables/iptables.go:40-41 | a comment quoting the jump, or a jump to a chain with a longer name, is read as our jump |
| Firewall.AddRulesForIgnoredPorts | pkg/iptables/iptables.go:264-269 | appends one RETURN rule per chunk, in order, to the given commands |
| Firewall.AddRulesForIgnoredSubnets | pkg/iptables/iptables.go:271-276 | appends one RETURN rule per subnet, in order |
| Firewall.AddRulesForInboundPortRedirect | pkg/iptables/iptables.go:242-262 | appends the one redirect of all ports, or one per listed port in order, or nothing for an unknown mode |
| Firewall.AddIncomingTrafficRules | pkg/iptables/iptables.go:218-240 | the inbound half: create or flush by what was seen, the rules in order, and the jump unless it was seen |
| Firewall.AddOutgoingTrafficRules | pkg/iptables/iptables.go:180-216 | the outbound half, with UID and GID rules only for positive values |
| Firewall.ScanByName | pkg/iptables/iptables.go:40-43 | the four expressions with the names they hold |
| Firewall.EveryRuleIsLabelled | pkg/iptables/iptables.go:175-178 | every rule, the jumps included, carries as its last match the one comment that begins with `proxy-init/` |
| Firewall.WalkIgnorePorts | pkg/iptables/iptables.go:264-269 | the multiport rules return a packet exactly when it is TCP and an entry of the list covers its port |
| Firewall.WalkIgnoreSubnets | pkg/iptables/iptables.go:271-276 | the subnet rules return a packet exactly when its source lies in some subnet |
| Firewall.WalkRedirect | pkg/iptables/iptables.go:242-262 | the redirect rules send a TCP packet to the proxy exactly when all ports, or its own, are to be redirected |
| Firewall.WalkOwner | pkg/iptables/iptables.go:187-195 | the owner rules return a packet exactly when its UID or GID is a positive proxy ID |
| Firewall.InboundMeaning | pkg/iptables/iptables.go:218-262 | walking the inbound chain redirects every packet exactly as the declarative verdict says, with "redirect-all" and "redirect-listed" as the modes, and never decides it otherwise |
| Firewall.OutboundMeaning | pkg/iptables/iptables.go:180-202 | the same for the outbound chain |
| ConfigureFirewall.Kernel.Execute | pkg/iptables/iptables.go:308-331 | one command takes its full effect or none |
| ConfigureFirewall.Kernel.ExecuteAll | pkg/iptables/iptables.go:90-102 | commands run until one is refused or fails for outside reasons; the table is what the completed ones leave |
| ConfigureFirewall.RunConfigureFirewall | pkg/iptables/iptables.go:68-107 | reads the table, compiles, executes; without outside failures it succeeds exactly for acceptable configurations and leaves the installed table, changed as said by name, and with them it stops after some whole number of commands |
| ConfigureFirewall.RunHalf | pkg/iptables/iptables.go:218-240 | the first k commands of a half run exactly when the rules among them are acceptable, and the table is then known rule by rule |
| ConfigureFirewall.RulesOk | pkg/iptables/iptables.go:180-306 | iptables accepts every compiled rule exactly when ignore lists are empty or hold a valid entry, subnets are well formed and the ports used are in range |
| ConfigureFirewall.ScanFaithful | pkg/iptables/iptables.go:40-43 | what the four patterns report of any printed table: chains exactly, and jumps exactly when some rule of the hook reads as one |
| ConfigureFirewall.ConfigureSucceedsExactly | pkg/iptables/iptables.go:68-107 | from any table, whatever our chains held, all commands succeed exactly for acceptable configurations, and then each chain holds exactly its rules and nothing else has changed |
| ConfigureFirewall.ConfiguredByName | pkg/iptables/iptables.go:22-33 | what a configuration changes, by name: PREROUTING ends with a jump to PROXY_INIT_REDIRECT and OUTPUT with one to PROXY_INIT_OUTPUT, unless seen, the two chains are there, and nothing else has changed |
| ConfigureFirewall.ChainsMeanConfiguration | pkg/iptables/iptables.go:180-276 | afterwards the walk of both chains gives every packet exactly the declarative verdict |
| ConfigureFirewall.StopsBetweenCommands | pkg/iptables/iptables.go:95-98 | a failing run stops at the table that some number of whole commands leave |
| ConfigureFirewall.FailStopSafe | pkg/iptables/iptables.go:90-102 | after any number of commands every packet gets from a created or flushed chain its final verdict or no redirect, and a hook changes only once its chain is complete; for every configuration |
| HookMeaning.HooksMeanConfiguration | pkg/iptables/iptables.go:180-240 | for every list of rules, those of the hooks and of all other chains included: after a configuration, packets walk the rules that were there with the missing jumps appended, and each jump to one of our chains, wherever it stands and whatever its condition, has the effect the declarative verdict asks for |
| HookMeaning.PreroutingMeans | pkg/iptables/iptables.go:218-240 | at the inbound hook, for any unconditional jump it holds, appended or old: the rules before it decide first, then the redirection asked for, then the rules after it |
| HookMeaning.OutputMeans | pkg/iptables/iptables.go:180-216 | the same at the outbound hook |
| HookMeaning.ArrivingMeans | pkg/iptables/iptables.go:218-240 | packets that arrive, at the chain the kernel hands them to: the rules that were there decide first, then the inbound verdict |
| HookMeaning.SentMeans | pkg/iptables/iptables.go:180-216 | packets the host sends, at theirs: the rules that were there, then the outbound verdict |
| HookMeaning.FreshNamespaceMeans | pkg/iptables/iptables.go:68-107 | in a fresh network namespace every arriving packet is redirected exactly as the inbound verdict says, and every sent one as the outbound verdict says |
| HookMeaning.MeantElsewhere | pkg/iptables/iptables.go:68-107 | rules from which no jump leads to our chains or a hook treat every packet as before the run |
| HookMeaning.MisreadHookIsBypassed | pkg/iptables/iptables.go:204-237 | for each hook on its own: one that reads as jumping to us, though its packets do not reach us, gets no jump and treats every packet as before |
| HookMeaning.HookUntouchedUntilComplete | pkg/iptables/iptables.go:180-240 | for each hook on its own: if its packets did not reach us, until its chain is complete it treats every packet as before the run |
| Reconfigure.LastConfigurationWins | pkg/iptables/iptables.go:68-107 | from every table with both hooks, whatever it holds, any number of successful configurations leave exactly the table of the last one alone |
| Reconfigure.NextRunSucceeds | pkg/iptables/iptables.go:68-107 | after any runs, one more with an acceptable configuration succeeds |
| Reconfigure.RerunChangesNothing | pkg/iptables/iptables.go:68-107 | running the last configuration again succeeds and changes nothing |
| Reconfigure.RunsStayReady | pkg/iptables/iptables.go:74-78 | after any runs on a table that prints as whole lines, the table does so again, so every later reading is exact too |
| Reconfigure.RecoveryAfterStop | pkg/iptables/iptables.go:90-102 | from the table that any number of commands of any configuration left, a run succeeds exactly when it would have from the start, and leaves the same table |
| Reconfigure.OneJumpPerHook | pkg/iptables/iptables.go:204-237 | however often a table without our chains and jumps is configured, each hook holds exactly one jump if none of its rules read as one before, and none otherwise |
| Cleanup.CleanupSucceedsExactly | pkg/iptables/iptables.go:145-173 | on any table, the six commands succeed exactly when both jumps and both chains are there and nothing else refers to the chains, and then these are gone and nothing else has changed |
| Cleanup.CleanupByName | pkg/iptables/iptables.go:145-173 | what cleanup takes out, by name: the first jump to PROXY_INIT_REDIRECT from PREROUTING, the first to PROXY_INIT_OUTPUT from OUTPUT, and both chains; nothing refers to them afterwards and no other chain has changed |
| Cleanup.RunCleanupFirewallConfig | pkg/iptables/iptables.go:111-143 | without outside failures succeeds exactly on those tables, and after configurations of a table without our chains and jumps exactly when no hook was misread, leaving that table |
| Cleanup.CleanupInverts | pkg/iptables/iptables.go:145-173 | after any positive number of configurations of a table without our chains and jumps, the six commands succeed exactly when no rule of either hook read as our jump, and then restore the table, other rules and their order included |
| Cleanup.CleanupAfterStop | pkg/iptables/iptables.go:126-138 | after a run cut short they succeed only if it had in fact ended and installed both jumps |
| Cleanup.EmptyNatIsUnconfigured | pkg/iptables/iptables.go:204-237 | the nat table of a fresh network namespace meets the conditions of the results above: our chains and jumps are absent, it prints as whole lines and no hook is misread |
| Cleanup.QuotingTableDefeatsBoth | pkg/iptables/iptables.go:40-41 | where a rule quotes the jump in its comment, no number of configurations installs the inbound jump, and cleanup is refused at its first command |
| RootOptions.Options.BuildFirewallConfiguration | proxy-init/cmd/root.go:166-229 | succeeds exactly for usable options, names the first unusable one otherwise, with each mode and binary by name; and the configuration it returns is acceptable to iptables exactly when the two things it does not check hold |
| CniConfig.ScanForLinkerd | internal/cni/conf.go:282-292 | the scan stops at the first non-object or linkerd entry |
| CniConfig.FindFromMeaning | internal/cni/conf.go:282-292 | what the scan result says about every entry before it, including that nothing after it was looked at |
| CniConfig.Inject | internal/cni/conf.go:251-303 | injection of one document into another, with each error case; a single plugin comes out as the list written out by key and value |
| CniConfig.InjectSingleByName | internal/cni/conf.go:266-275 | a document with a `type` becomes a list with exactly the keys name, cniVersion and plugins, named k8s-pod-network at version 0.3.1, of the plugin without its version and then linkerd |
| CniConfig.ListByName | internal/cni/conf.go:276-301 | for a document without one, by what its `plugins` hold, what injection and revert do: the first entry of type linkerd-cni goes, unless an entry before it is no object, and the new one comes last |
| CniConfig.NoListByName | internal/cni/conf.go:277-281 | without a list in `plugins` both fail |
| CniConfig.InjectReadsBoth | internal/cni/conf.go:251-262 | both texts must be objects or null; the error otherwise, and what the outcome is in terms of the documents |
| CniConfig.FirstSourceMeaning | internal/cni/conf.go:65-88 | a source is chosen exactly when some source is readable and not empty, and it is the first such |
| CniConfig.ChooseSource | internal/cni/conf.go:71-87 | the loop over the sources finds that one |
| CniConfig.InjectKeepsOthers | internal/cni/conf.go:277-300 | injection keeps the other plugins in order, puts linkerd last and leaves max(1, n) linkerd entries from n |
| CniConfig.InjectTimesShape | internal/cni/conf.go:277-300 | after k injections the first k linkerd entries have become a block of injected ones at the end |
| CniConfig.InjectionConverges | internal/cni/conf.go:251-303 | after max(1, n) injections the list is a fixed point: the other plugins, then a block of max(1, n) injected entries |
| CniConfig.RevertUndoesInjectionExactly | internal/cni/remove.go:39-84 | revert after inject gives the original minus its first linkerd entry, other keys unchanged, exactly when there was at most one or all from the second on are the injected plugin; with none it is the original |
| CniConfig.RevertCanLeaveInjected | internal/cni/remove.go:56-68 | two older entries: revert leaves the injected one |
| CniConfig.RevertOfWrapped | internal/cni/conf.go:266-275 | a wrapped single plugin reverts to a one-plugin list without its version key; one that is itself linkerd leaves the injected entry |
| CniConfig.InjectSettlesList | internal/cni/conf.go:276-301 | injection settles a list configuration from itself: linkerd last, the same other plugins in order and the same other keys |
| CniConfig.InjectSettlesSingle | internal/cni/conf.go:266-275 | injection settles a single plugin from itself, upgraded to a list |
| CniConfig.InjectKeepsSettled | internal/cni/conf.go:251-303 | injecting again into a settled configuration keeps it settled from the same origin |
| CniConfig.InjectSound | internal/cni/conf.go:251-303 | on configurations of objects with at most one linkerd entry injection succeeds, keeps them so and is idempotent |
| CniConfig.RevertSettled | internal/cni/remove.go:39-84 | reverting a settled configuration leaves the origin's other plugins and keys, and nothing else when it held one linkerd entry |
| CniPaths.PathFacts | internal/cni/run.go:125-128 | how configuration names, their destinations and temporary names are classified: a temporary file is never a CNI file, a `.conf` moves to its `.conflist` |
| CniPaths.FilesByName | internal/cni/run.go:125-128 | a CNI file is one whose name ends in `.conf` or `.conflist`, `x.conf` is rewritten to `x.conflist`, and the temporary name, which adds `.install`, is no CNI file |
| CniHandlers.OtherEventsIgnored | internal/cni/watch_fs.go:24-26 | an event without a creation, rename or write, and one on any other file, changes nothing |
| CniHandlers.KubeconfigRewritten | internal/cni/conf.go:113-188 | an event on the token's `..data` puts the current text at the kubeconfig, whatever was there or logged before; where that fails, an error is met and only the temporary file may have changed |
| CniHandlers.ConfigurationNotRewritten | internal/cni/conf.go:191-214 | a configuration that is missing, or is what was recorded, is skipped; one that cannot be read or injected into is an error that changes no file |
| CniHandlers.ConfigurationRewritten | internal/cni/conf.go:215-242 | in every other case, with nothing failing, the `.conflist` holds the injected version, the `.conf` is gone, the version is recorded and logged, and no other file has changed |
| CniHandlers.FailedRewriteChangesNothing | internal/cni/conf.go:222-232 | a rewrite that cannot write or rename its temporary file changes nothing else |
| CniInvariant.StepInv | internal/cni/conf.go:190-242 | every step of the loop, the environment, crashes and restarts keeps the invariant: files derive from external versions, unrecorded files are pending, log names are distinct and are the paths put in place |
| CniInvariant.RunInv | internal/cni/installer.go:86-92 | so it holds in every reachable state: in particular the log has distinct names, which are those of all files put in place |
| CniInvariant.QuiescentIsSettled | internal/cni/watch_fs.go:56-76 | over every run, at quiescence each CNI file is a logged `.conflist` that ends in linkerd and keeps the other plugins and keys of the external version it stems from |
| CniInvariant.PendingConfOverwrites | internal/cni/conf.go:215-241 | how a write gets lost: one handler call on a `.conf` replaces whatever its `.conflist` held |
| CniProvenance.StepCarries | internal/cni/conf.go:190-242 | a pair of `.conf` and `.conflist` keeps carrying the same external version through every step until an external writer touches it |
| CniProvenance.ConfIsAsWritten | internal/cni/conf.go:215-241 | over every run, no step of the process rewrites a `.conf` |
| CniProvenance.LastExternalVersionWins | internal/cni/watch_fs.go:56-76 | at any quiescence after an external write left alone, through handlers, crashes and restarts, the `.conflist` of that name is there and is the written version with linkerd last, or that of the `.conf` that waited when a `.conflist` was written |
| CniProvenance.WriteSurvivesExactly | internal/cni/watch_fs.go:56-76 | the written version is what the `.conflist` settles to if and only if no `.conf` of its name waited, or that one differed in linkerd entries only |
| CniProvenance.FirstVersionWins | internal/cni/run.go:100-109 | the same for the versions that were there before the process first started |
| CniProvenance.StepStaysGone | internal/cni/conf.go:190-242 | a pair that is gone, with no rewrite about to put it back, stays gone through every step until an external writer touches it |
| CniProvenance.LastDeletionWins | internal/cni/watch_fs.go:56-76 | at any quiescence after an external deletion left alone, through handlers, crashes and restarts, the `.conflist` is the `.conf` that was left, or else what the remaining `.conflist` stemmed from, with linkerd last; if neither file was left, both are still absent |
| CniTermination.MicroLess | internal/cni/conf.go:220-241 | every step of a rewrite lowers the six-part measure, although it enqueues events |
| CniTermination.DispatchLess | internal/cni/watch_fs.go:65-75 | so does taking an event, whatever its handler does |
| CniTermination.LoopStepLess | internal/cni/watch_fs.go:56-76 | hence every step of the loop does, handler errors included |
| CniTermination.Drain | internal/cni/watch_fs.go:56-76 | without further external writes the loop comes to rest with nothing pending |
| CniTermination.DrainByHandlers | internal/cni/watch_fs.go:65-75 | running whole handlers comes to rest in the same state as running single steps |
| CniStartup.BinariesStay | internal/cni/install.go:14-90 | over every run, from a start on each binary is in place with its own content, through crashes and restarts, until an external writer touches it |
| CniStartup.KubeconfigAtRest | internal/cni/run.go:96-99 | over every run, at any quiescence after a start the kubeconfig holds the current text, unless an external writer has touched it since |
| CniProgress.RunReady | internal/cni/watch_fs.go:56-76 | from every reachable state the loop can go on: a rewrite is under way only for a file whose digest is not the recorded one |
| CniProgress.DrainIsRun | internal/cni/watch_fs.go:56-76 | where the loop comes to rest is reached by extending the run with the loop's own steps only |
| CniProgress.LastExternalVersionIsReached | internal/cni/watch_fs.go:56-76 | from any point of any run with sound versions where nothing fails any more, if an external write has been left alone, the loop comes to rest without an error, with the surviving version and linkerd last |
| CniProgress.WriteCanBeLost | internal/cni/conf.go:215-241 | for any two sound versions that differ in more than linkerd entries, there is a run that loses a write: one to the `.conflist`, left alone since, is not what that file holds at quiescence |
| CniProgress.SuchVersions | internal/cni/conf.go:266-301 | there are two such versions |
| CniRecovery.InternalStepPreservesWorth | internal/cni/conf.go:220-241 | no step of the process, crashes and restarts included, changes what the files will come to be |
| CniRecovery.WholeConfigurationAtEveryPoint | internal/cni/conf.go:224-239 | at every crash point each original configuration is there as a whole and sound, as itself or as what it is rewritten to |
| CniRecovery.DrainSound | internal/cni/conf.go:190-242 | with sound files and no failing operation, draining meets no error |
| CniRecovery.AtRestIsWorth | internal/cni/conf.go:190-242 | at rest the configurations are exactly what the files were worth |
| CniRecovery.RecoveredIsWorth | internal/cni/run.go:100-109 | restarting and draining the initial events ends quiescent, with exactly those configurations |
| CniRecovery.CrashRecoveryConverges | internal/cni/conf.go:190-242 | after a run cut short at any step, any number of times, a restart leaves the configurations an uninterrupted run leaves |
| CniRemoval.RevertIsLocal | internal/cni/remove.go:39-114 | reverting an entry changes its own file only and depends on nothing else |
| CniRemoval.RevertOutcomes | internal/cni/remove.go:39-84 | what reverting a configuration does in every case, errors included, which change nothing |
| CniRemoval.RevertTakesAway | internal/cni/remove.go:86-114 | any other logged file is removed if it is there, and an error is reported if that fails |
| CniRemoval.RemoveIsPointwise | internal/cni/remove.go:18-27 | each logged entry is reverted as it would be alone, whichever others fail; errors are those of failing entries in log order; other files are untouched |
| CniRemoval.RunStartLogged | internal/cni/install.go:22-31 | since its start the process has logged all binaries, and the kubeconfig unless its event is pending or an error was met |
| CniRemoval.RunThenRemove | internal/cni/remove.go:18-84 | from a quiescent state of any run Remove reports no error, deletes binaries and kubeconfig, and leaves each configuration with exactly the plugins minus linkerd of the version it stems from |
| CniRemoval.RemoveLeavesLastVersion | internal/cni/remove.go:18-84 | joined to the external writes: after a write left alone, running and then removing leave the `.conflist` of that name with exactly the surviving version's plugins minus linkerd, and its other keys |
| CniRemoval.RemoveLeavesFirstVersion | internal/cni/remove.go:18-84 | the same for the versions that were there before the process first started |
| CniRemoval.StepRecordsWrites | internal/cni/conf.go:224-233 | whatever a step of the process puts at a path that is not temporary is recorded as written |
| CniRemoval.WritesAreLogged | internal/cni/installer.go:86-92 | over every run, whatever the process puts at a path that is not temporary is in the log for as long as it lives, but for the file just renamed |
| CniInstaller.InstalledInFull | internal/cni/install.go:34-90 | copying through temporary names, a complete installation puts every binary in place, leaves no temporary and logs each once |
| CniInstaller.InstallStopsAtFailure | internal/cni/install.go:25-31 | copying stops at the first binary that cannot be copied, and exactly those before it are logged |
| CniInstaller.Installer.AppendEntry | internal/cni/installer.go:86-92 | logs a name once and keeps `logIdx` equal to the names in the log |
| CniInstaller.Installer.ReconfigureCNI | internal/cni/conf.go:190-242 | whatever the outcome, the call goes through exactly the states of the machine's handler and reports exactly its errors |
| CniInstaller.Installer.Rewrite | internal/cni/conf.go:215-241 | the writing part, step by step, from any state |
| CniInstaller.Installer.HandleNext | internal/cni/watch_fs.go:65-75 | one round of the event loop is one whole handler of the machine |
| CniInstaller.Installer.WatchUntilQuiet | internal/cni/watch_fs.go:56-76 | the loop terminates and ends where the machine comes to rest |
| CniInstaller.Installer.InstallRegularFiles | internal/cni/install.go:14-55 | copies and logs binaries in order until a copy fails |
| CniInstaller.Installer.Start | internal/cni/run.go:27-109 | binaries installed, initial events for the token and for every entry of the directory; on a failed copy only what was copied is logged |
| CniInstaller.Installer.RevertCniFile | internal/cni/remove.go:39-84 | takes linkerd out of one file, with each error case and each case that leaves the file alone |
| CniInstaller.Installer.Remove | internal/cni/remove.go:18-27 | reverts every entry in log order and collects the errors |
| CniInstaller.HandlerProgress | internal/cni/watch_fs.go:65-75 | a whole handler call lowers the measure and leaves the resting point where it was |
| Repair.QualifiesByFirstValidator | cni-repair-controller/src/lib.rs:84-94 | a pod event qualifies exactly when the first init container named linkerd-network-validator last exited with 95 and the pod is not being deleted |
| Repair.StepBalanced | cni-repair-controller/src/lib.rs:74-172 | every step of producer and consumer keeps the balance of events, outcomes and counters |
| Repair.AccountingHolds | cni-repair-controller/src/lib.rs:68-172 | in every reachable state: qualifying = overflows + queued + received (+ the one that hit a closed queue), received and deleted split into outcomes and the one in flight, at most 32 queued, counters exact modulo 2^64 |
| Repair.AttemptsAreQualifying | cni-repair-controller/src/lib.rs:84-128 | deletion attempts are, in order, a subsequence of the qualifying events |
| Repair.QueuedWhileRoom | cni-repair-controller/src/lib.rs:97-110 | over every run, while the queue is open a qualifying event is queued if and only if fewer than 32 pods are, and the overflow counter changes if and only if 32 are |
| Repair.ObserveByCapacity | cni-repair-controller/src/lib.rs:76-112 | what one event changes in each case, and what it leaves |
| Repair.MetricsCountSteps | cni-repair-controller/src/lib.rs:133-170 | in every reachable state each exported counter is, modulo 2^64, the number of steps it counts: overflows, and calls that ended in each of the three ways |
| Repair.BusyWithLastAttempt | cni-repair-controller/src/lib.rs:123-160 | the consumer deletes the pod it received last, and publishes an event about it only after that succeeded |
| Repair.Controller.ProcessEvent | cni-repair-controller/src/lib.rs:76-112 | one event of the producer loop: queued while fewer than 32 pods are, counted as an overflow when 32 are, or the end on a closed queue |
| Repair.Controller.ProcessEvents | cni-repair-controller/src/lib.rs:74-115 | a stretch of the stream, which ends early on a closed queue, keeps the balance |
| Repair.Controller.FinishDelete | cni-repair-controller/src/lib.rs:133-151 | a deletion counts under exactly one outcome and goes on to publishing only on success |
| Repair.Controller.FinishPublish | cni-repair-controller/src/lib.rs:154-170 | a publication counts under exactly one outcome |
| Repair.Controller.ProcessPods | cni-repair-controller/src/lib.rs:123-172 | the consumer loop over the queued pods with the results its calls meet; it keeps the balance |
| Repair.RepairAllMeaning | cni-repair-controller/src/lib.rs:123-172 | a consumer left alone attempts every queued pod once, in order, and counts each under one outcome |

## Left out

- Process execution, `nsenter`, `-w`, simulate mode, logging and `resolveBinFallback`: plumbing around the commands.
- `ContinueOnError` true: a skipped RETURN rule breaks the verdict claims.
- Commands are values (operation, chain, rule) rather than argument vectors; the text of `--dports`, of comments and of subnets is kept as text.
- iptables' own checks are modelled for the arguments this compiler computes (multiport lists, ports, prefix lengths, target chains); bounds on UID and GID, the jump-loop check and GOTO are not.
- The saved text prints counters as `[0:0]`, no timestamps, and comments always in quotes without escapes.
- Packets meet one address family at a time, and `BuildFirewallConfiguration` receives each subnet with the verdict of CIDR parsing: splitting the text, trimming blanks and mixed families are not part of this model.
- ConfigureFirewall.ConfigureSucceedsExactly: takes what was seen of the table as an argument, because `ScanFaithful` gives it for any printed table; tables with names or texts that break the printed lines are not covered by `ScanFaithful`.
- JSON text, sha256, base64 and YAML: documents are values, decoding printed bytes gives the document back, and digests are injective and never the zero value.
- Replacing `__KUBECONFIG_FILEPATH__` in the sources: `ChooseSource` receives them already replaced.
- The body of `reconfigureK8s`: reduced to its effect on the kubeconfig, as one step.
- Go channels, goroutine shutdown, fsnotify internals and lost notifications: one queue and atomic dispatch. After a handler error the model goes on with `failed` set; the exit of the main program is a crash step.
- External writers inside a single `reconfigureCNI` call, crashes while binaries are copied and during `revert`, and events on a watched directory itself.
- The watched directories are distinct, binaries and kubeconfig are no CNI files, and the injected configuration is of type linkerd-cni: `ConfigOk` says so. With another type injection appends a new entry at every pass.
- CniStartup.KubeconfigAtRest: for a kubeconfig whose name does not end in `.install`; by default it is `ZZZ-linkerd-cni-kubeconfig`.
- A file that can be read but not written: an operation on a path in `broken` fails in either direction.
- The consumer's time limits appear as outcomes; wall-clock time and latency values are not part of this model, only how often a latency is observed.
- `cni-plugin/main.go`, the validator's sockets and signals, command-line flags, Dockerfiles and integration scripts.
