# Verified models of mcpmux and grpc_exec

Two concurrent programs of this repository, modelled in Dafny and proved against what they are for.

* **mcpmux** runs child MCP servers behind one server. `Child` has a lifecycle driven by concurrent `Start` and
  `Stop` calls and a monitor goroutine; the proxy keeps a registry of children and, derived from it, the tool
  table of its own MCP server.
* **grpc_exec** runs a shell command for a client and streams its output. The server's `RunCommand` is five kinds
  of goroutine around one process; the client quotes its arguments for the shell and drains the event stream.

## How the models are built

Code that updates fields in place is a class whose methods are proved against functions of the field values:
`ChildState.Child` (one method per critical section of `mu`), `Registry.Proxy` (one method per handler). Loops are
methods with invariants: `ChildState.DiscoverTools`, `OutputLoop.PumpOutput` (with the reused buffer and the copies
as arrays), `Client.ReceiveLoop`, `ShellQuote.ShellJoinLoop`. Pure string code is functions.

Concurrency is a labelled transition system: a function `Step` from a world and a label to the next world, or
nothing when the label is not enabled. One step is one critical section, one channel operation or one external
call, and every call in progress has a position. `Prelude.Run` executes a sequence of labels; `Reachable` worlds
are those some run from `INIT` leads to. The critical sections in these systems are the functions the class methods
are proved against. The answers of external calls (Connect, ListTools, Close, Send, Recv, Read, Wait, the exit of a
process) are labels, so every theorem holds for every behaviour of the environment.

| file | contents |
|---|---|
| `Prelude.dfy` | optional values, runs of a transition system, invariants along runs |
| `Namespace.dfy` | the `{server}__{tool}` codec |
| `ChildState.dfy` | fields and critical sections of a child, tool discovery |
| `ChildLifecycle.dfy`, `ChildInvariant.dfy` | any number of `Start` and `Stop` calls on one child, and what every step keeps |
| `ChildSafety.dfy`, `ChildLiveness.dfy` | theorems about all runs; every `Stop` returns in every fair run |
| `ToolTable.dfy`, `Registry.dfy` | the tool table; the registry with its handlers |
| `RegistryAgreement.dfy` | the tool table follows the registry over all sequences of handlers, crashes and late callbacks |
| `ProxyInterleaving.dfy`, `ProxySafety.dfy` | the proxy at the grain of its locks; routing and isolation |
| `ProxyRegistration.dfy` | who is registered while a thread works |
| `ProxyAccount.dfy`, `ProxyPerServer.dfy` | the tool table follows the registry in every run without a harmful step, so whenever calls for a server take turns |
| `ProxyStops.dfy` | which children that are no longer registered get stopped |
| `ProxyRefinement.dfy` | undisturbed, the handlers at the grain of the locks are the handlers taken as one step |
| `ProxyRaces.dfy` | five races between steps for one server, each with its exact condition and a run |
| `ExecTypes.dfy`, `ExecServer.dfy` | the service's messages; `RunCommand` as a transition system |
| `ExecControl.dfy`, `ExecInvariant.dfy`, `ExecSafety.dfy` | its invariants and theorems |
| `ExecAnswers.dfy` | what `RunCommand` answers to events and failures, over whole runs |
| `ExecLiveness.dfy`, `ExecAfterExit.dfy` | `RunCommand` returns in every fair run; SIGKILL after the exit |
| `Termination.dfy`, `TimedExec.dfy` | grace timers against one deadline, on their own and in the full interleaving |
| `OutputLoop.dfy`, `Client.dfy`, `ShellQuote.dfy` | the read loop, the client's receive loop, shell quoting |

## Where the code and its documentation differ

* child.go:176 says that Start only closes a session it still owns; line 183 closes it in any case. So closing is
  proved as "at least once", `ChildSafety.ClosedTwiceIff` says exactly when a session is closed twice, and
  `ChildSafety.ClosedTwiceWitness` is a run that does.
* server.go:196-197 says that a detected protocol violation is returned instead of the exit event. The receiver
  kills the command before it reports, so the main goroutine can pass the select first:
  `ExecSafety.ViolationReportedIff` is the exact condition, `ExecSafety.ViolationLostWitness` a run that loses it.
* mcpmux/README.md:93 says that a crash removes the child's tools. A callback that lands while `handleAddServer` is still
  registering removes only what is there: `ProxyRaces.CrashDuringRegistration` says which names are left, for every
  turn at which it may land, and that none is if and only if it came after the last one.
* proxy.go:301-302 says that a callback removes tools only if its child was not replaced by a reload. The check is
  made under the lock, the removal after it: a reload in between loses the tools of the replacement, even with one
  management call at a time (`ProxyRaces.ReloadOvertakesCallback`). `ProxyRaces.CallbackHitsAnotherIff` says exactly
  when it takes an entry under a replacement, `ProxyRaces.CallbackNoLongerCurrentIff` when it takes one at all
  although its child is no longer the current one.
* A failed add takes back its registration by name (proxy.go:141 and 149), whosever it is by then:
  `ProxyRaces.UndoHitsAnotherIff` is the exact condition, `ProxyRaces.LateFailureUnregistersReplacement` a run.
* The loop that registers tools (proxy.go:156-171) and the removal of tools (proxy.go:191) run outside the lock:
  `ProxyRaces.LateRegistrationIff` and `ProxyRaces.RemovalHitsAnotherIff` say when they meet another child's name,
  `ProxyRaces.RemovalBeforeRegistration` and `ProxyRaces.AddOvertakesRemoval` are runs. `ProxyAccount.AgreesUnlessHit`
  shows that the harmful steps it names are all there are.
* A child whose registration a failed add takes back is never stopped by any handler, even if it is another's child
  and runs (`ProxyStops.UndoneIsNeverStopped`).
* The requirements of mcpmux ask server names not to contain `__`; the code also rejects a trailing `_`.
  `Namespace.RoundTripIffValid` shows that both conditions together are exactly what the codec needs.
* mcpmux/README.md gives the life of a child as New, Starting, Running, then Stopped or Crashed; a cancelled Start
  may stay at Starting (`ChildSafety.LeftStarting`, `ChildSafety.FailedStartCrashesIff`).

## Model

| member | source | states |
|---|---|---|
| Namespace.Index | mcpmux/internal/mcpmux/namespace.go:50 | the first position of the separator, and none before it; None only if there is none at all |
| Namespace.SplitPrefix | mcpmux/internal/mcpmux/namespace.go:41-55 | a valid server name is split off again together with whatever tool name followed it |
| Namespace.RoundTripIffValid | mcpmux/internal/mcpmux/namespace.go:28-55 | validation accepts a name if and only if it is not empty and every tool name survives prefixing and splitting with it |
| Namespace.EmptyNameRefused | mcpmux/internal/mcpmux/namespace.go:28-31 | the empty name is refused, although it would survive the round trip |
| Namespace.RefusalTellsWhy | mcpmux/internal/mcpmux/namespace.go:28-38 | the reason given is emptiness exactly for the empty name, a separator exactly for a name with two adjacent underscores, and else a trailing underscore |
| Namespace.PrefixSplit | mcpmux/internal/mcpmux/namespace.go:43-55 | whenever splitting succeeds, prefixing rebuilds the name, and the server part is valid unless it is empty |
| Namespace.SplitFails | mcpmux/internal/mcpmux/namespace.go:46-55 | splitting succeeds if and only if the name has two adjacent underscores, and else gives the whole name back as the tool |
| Namespace.PrefixInjective | mcpmux/internal/mcpmux/namespace.go:28-44 | prefixed names of valid servers are equal only for equal servers and equal tools |
| ShellQuote.ShellJoinLoop | grpc_exec/cmd/grpc_exec/main.go:133-141 | the slice-filling loop computes the joined line whose meaning the round trip states |
| ShellQuote.LexQuote | grpc_exec/cmd/grpc_exec/main.go:126-131 | read by the shell, one quoted argument is exactly one word: single-quoted characters, with each single quote double-quoted |
| ShellQuote.LexEscaped | grpc_exec/cmd/grpc_exec/main.go:130 | inside single quotes the escaped text, closed by a quote, reads back as the argument and leaves the lexer unquoted |
| ShellQuote.ShellRoundTrip | grpc_exec/cmd/grpc_exec/main.go:126-141 | for all arguments the POSIX lexer turns the joined line back into exactly these arguments, no character of which is read unquoted |
| ShellQuote.ShellJoinInjective | grpc_exec/cmd/grpc_exec/main.go:133-141 | different argument lists give different lines |
| ShellQuote.CommandLineKeepsArguments | grpc_exec/cmd/grpc_exec/main.go:49-64 | no arguments are an error; one argument is sent as it is; several reach the shell as exactly those words |
| ChildState.Child.constructor | mcpmux/internal/mcpmux/child.go:85-95 | a new child has status New and nothing else |
| ChildState.Child.StartEntry | mcpmux/internal/mcpmux/child.go:101-111 | only a New child lets a Start in, and a refused one learns the status and changes nothing |
| ChildState.Child.PublishSession | mcpmux/internal/mcpmux/child.go:163-172 | session and process are published unless the child left Starting |
| ChildState.Child.AbandonSession | mcpmux/internal/mcpmux/child.go:177-182 | a failed discovery takes back only its own session |
| ChildState.Child.CommitTools | mcpmux/internal/mcpmux/child.go:187-195 | tools and status Running are set together, unless the child left Starting |
| ChildState.Child.StartExit | mcpmux/internal/mcpmux/child.go:115-126 | the field part of leaving Start; the channel close is a step of the lifecycle |
| ChildState.Child.StopEntry | mcpmux/internal/mcpmux/child.go:254-266 | the caller takes session, process and cancel function out of the fields; Crashed is preserved |
| ChildState.Child.StopReread | mcpmux/internal/mcpmux/child.go:277-282 | the caller takes what the fields hold at the re-read |
| ChildState.Child.MonitorExit | mcpmux/internal/mcpmux/child.go:232-238 | Running becomes Crashed and the callback is due; any other status stays |
| ChildState.DiscoverTools | mcpmux/internal/mcpmux/child.go:204-219 | asks with the cursor of the previous reply until a reply has none, returns the tools of all pages in order, and fails on the first failed call |
| ChildInvariant.StepKeepsInv | mcpmux/internal/mcpmux/child.go:100-305 | every step of any Start, Stop or monitor keeps the invariant the theorems rest on |
| ChildSafety.OpenSessionHasCloser | mcpmux/internal/mcpmux/child.go:134-305 | in every reachable world an open session has an obligated closer: its Start call, the session field, or a Stop call |
| ChildSafety.NothingLeaks | mcpmux/internal/mcpmux/child.go:134-305 | when all calls are over and some Stop ran, every session has been closed and every process of a failed Connect killed |
| ChildSafety.AbandonGuard | mcpmux/internal/mcpmux/child.go:176-183 | the ownership test fails exactly when some Stop call holds or has closed the session |
| ChildSafety.ClosedTwiceIff | mcpmux/internal/mcpmux/child.go:174-184 | a session is closed twice exactly when its discovery failed after a Stop call had taken it, and never more often |
| ChildSafety.ClosedTwiceFromAbandoning | mcpmux/internal/mcpmux/child.go:174-184 | told as the discovery fails: in every run that goes on from there to its end the session is closed twice if and only if some Stop is past its first critical section at the ownership test |
| ChildSafety.ClosedTwiceWitness | mcpmux/internal/mcpmux/child.go:174-184 | a concrete run in which Start and Stop both close the session |
| ChildSafety.StopIsFinal | mcpmux/internal/mcpmux/child.go:161-172 | once any Stop is past its first critical section, no later world has a session, none can be published, and the status stays final |
| ChildSafety.SessionTakenOnce | mcpmux/internal/mcpmux/child.go:254-283 | over a whole run at most one Stop takes a session, and the re-read never finds one |
| ChildSafety.StopOutlastsStart | mcpmux/internal/mcpmux/child.go:253-274 | once a Stop is past its wait, in no later world is any Start between its entry and the close of startDone |
| ChildSafety.TimeoutHasProcess | mcpmux/internal/mcpmux/child.go:289-304 | a Stop whose graceful close times out has the process of that session to kill |
| ChildSafety.DrainingHasKilled | mcpmux/internal/mcpmux/child.go:296-303 | a Stop that waits on after the timeout has killed the process of the session it closes |
| ChildSafety.StatusMovesForward | mcpmux/internal/mcpmux/child.go:42-48 | along every run the status only moves forward, and Stopped and Crashed are final |
| ChildSafety.ToolsFixed | mcpmux/internal/mcpmux/child.go:187-195 | along every run the tools never change once the child is neither New nor Starting |
| ChildSafety.StartReturnsItsTools | mcpmux/internal/mcpmux/child.go:97-132 | the tools a successful Start has returned are those of the child in every later world |
| ChildSafety.StartOnce | mcpmux/internal/mcpmux/child.go:97-132 | one Start call passes entry, startDone is closed at most once, and Start succeeds exactly when it made the child Running |
| ChildSafety.RunningIsConsistent | mcpmux/internal/mcpmux/child.go:161-195 | Running means an open published session, its process, the tools that Start found, and no Stop past entry |
| ChildSafety.CrashedAtStartup | mcpmux/internal/mcpmux/child.go:115-123 | a child that crashed while starting has no session and no callback, and its Start failed |
| ChildSafety.LeftStarting | mcpmux/internal/mcpmux/child.go:117-122 | a Start that ends with the child at Starting failed with its context cancelled, before any Stop |
| ChildSafety.FailedStartCrashesIff | mcpmux/internal/mcpmux/child.go:115-123 | a failed Start leaves Crashed if and only if its context was not cancelled and no Stop came |
| ChildSafety.RefusalNamesStatus | mcpmux/internal/mcpmux/child.go:100-105 | a Start that is turned away answers with the status it found and changes nothing |
| ChildSafety.StartFailsBecause | mcpmux/internal/mcpmux/child.go:134-198 | over whole runs: which error a Start that passed entry returns is decided by which of its calls failed, Connect or a ListTools, or by a Stop that came before the session was published or after the last page |
| ChildSafety.DiscoveryCollectsPages | mcpmux/internal/mcpmux/child.go:204-219 | in the lifecycle too, an undisturbed discovery ends with the tools of all pages in order |
| ChildSafety.CrashCallbackOnce | mcpmux/internal/mcpmux/child.go:222-243 | onCrash runs at most once, only after Running became Crashed, and once the monitor is done exactly then |
| ChildSafety.NoCallbackAfterStop | mcpmux/internal/mcpmux/child.go:232-266 | a Stop that comes before the crash is noticed silences the callback in every later world |
| ChildSafety.NoLostCancellation | mcpmux/internal/mcpmux/child.go:253-274 | while a Stop waits for an unfinished Start, that Start's context is cancelled or some Stop is about to cancel it |
| ChildSafety.ContextReleased | mcpmux/internal/mcpmux/child.go:106-128 | a Start call that passed entry has cancelled the context it derived by the time it returns, on success too |
| ChildLiveness.ObligedCanStep | mcpmux/internal/mcpmux/child.go:100-305 | a thread that fairness obliges to move has an enabled step, so fairness asks for nothing impossible |
| ChildLiveness.HelperIsObliged | mcpmux/internal/mcpmux/child.go:253-305 | no deadlock: while a Stop has not returned, the thread it depends on has a step it must take |
| ChildLiveness.StepRank | mcpmux/internal/mcpmux/child.go:100-305 | no step of anyone leads away from a Stop's return, and the step of the thread it depends on leads closer |
| ChildLiveness.EveryStopReturns | mcpmux/internal/mcpmux/child.go:253-305 | in every fair run every Stop past its first critical section returns |
| ToolTable.RegisterLookup | mcpmux/internal/mcpmux/proxy.go:154-171 | registering overrides by the server's contribution and leaves every other name alone |
| ToolTable.ContributionNames | mcpmux/internal/mcpmux/proxy.go:154-171 | a server contributes exactly its prefixed names, each bound to the server and tool it is made of |
| ToolTable.LastToolWins | mcpmux/internal/mcpmux/proxy.go:156-171 | description and schema of the last tool of a name are kept, a missing schema becomes that of an object |
| ToolTable.ManagementNotPrefixed | mcpmux/internal/mcpmux/proxy.go:91-111 | no management tool can be split into server and tool |
| ToolTable.FourManagementTools | mcpmux/internal/mcpmux/proxy.go:91-111 | the management tools are add_server, remove_server, reload_server and list_servers, each with its own handler and description |
| Registry.Proxy.constructor | mcpmux/internal/mcpmux/proxy.go:39-54 | a new proxy has no child and exactly the management tools |
| Registry.Proxy.HandleAddServer | mcpmux/internal/mcpmux/proxy.go:115-178 | the handler, including its insertion and deletion, comes to the add whose effect the agreement states |
| Registry.Proxy.RemoveToolsForChild | mcpmux/internal/mcpmux/proxy.go:308-316 | exactly the child's prefixed names leave the table |
| Registry.Proxy.HandleRemoveServer | mcpmux/internal/mcpmux/proxy.go:180-195 | child and tools go, and the child is stopped unless it had crashed; an unknown name is an error and changes nothing |
| Registry.Proxy.HandleReloadServer | mcpmux/internal/mcpmux/proxy.go:197-221 | remove and add with the stored configuration |
| Registry.Proxy.HandleListServers | mcpmux/internal/mcpmux/proxy.go:233-262 | one entry per current child with the child's own status, command and arguments, and its prefixed tool names if and only if it runs |
| Registry.Proxy.HandleCrashOf | mcpmux/internal/mcpmux/proxy.go:294-306 | the callback removes tools only if the crashed child is still the current one |
| RegistryAgreement.TableAgreesWithRegistry | mcpmux/internal/mcpmux/proxy.go:115-316 | after any sequence of handlers, crashes and late callbacks the table holds under every name what splitting the name and asking the registry gives, live children being those Running or with a callback due |
| RegistryAgreement.StepKeepsInv | mcpmux/internal/mcpmux/proxy.go:115-316 | each handler, crash and callback keeps the agreement |
| RegistryAgreement.OtherServersUntouched | mcpmux/internal/mcpmux/proxy.go:115-221 | adding, removing, reloading or crashing one server changes no other name of the table |
| RegistryAgreement.ReloadRefinesReplace | mcpmux/internal/mcpmux/proxy.go:197-221 | a reload stops the old child and puts a fresh one with the old configuration under the name, or on failure removes the name with all its tools, and changes nothing else |
| RegistryAgreement.LateCallbackAfterReload | mcpmux/internal/mcpmux/proxy.go:294-306 | a callback that makes its check after the reload leaves the replacement and the table alone |
| RegistryAgreement.ListingIsTheTable | mcpmux/internal/mcpmux/proxy.go:233-262 | list_servers shows exactly the registered proxied tools if and only if no crashed child with tools awaits its callback |
| RegistryAgreement.AddAnswers | mcpmux/internal/mcpmux/proxy.go:115-178 | an add succeeds if and only if the name is valid and free and the child starts and keeps running, and then lists one name per tool, in order, that splits into server and tool and is registered; every failure has its own answer and changes neither registry nor table |
| RegistryAgreement.VainAddLeavesRecord | mcpmux/internal/mcpmux/proxy.go:126-151 | what becomes of the child of a failed add: crashed, or left starting by a cancelled Start |
| RegistryAgreement.UnknownNameAnswers | mcpmux/internal/mcpmux/proxy.go:180-206 | removing or reloading is answered with not found exactly for a name nobody is registered under, and then changes nothing |
| RegistryAgreement.RemoveEmpties | mcpmux/internal/mcpmux/proxy.go:180-195 | after a removal no name of the server is in the table, and every other name is as before |
| RegistryAgreement.RemoveAnswers | mcpmux/internal/mcpmux/proxy.go:180-195 | a removal frees the name, stops the child unless it had crashed, and touches no other |
| RegistryAgreement.CrashIsListed | mcpmux/internal/mcpmux/proxy.go:233-262 | a registered child that crashes is listed as crashed and without tools, before its callback and after it |
| RegistryAgreement.ManagementStays | mcpmux/internal/mcpmux/proxy.go:91-111 | in every reachable state the four names are registered with their handlers, and no other name runs one |
| RegistryAgreement.NoEmptyServer | mcpmux/internal/mcpmux/proxy.go:115-119 | in no reachable state is a child registered, or a tool bound, under the empty name |
| ProxyInterleaving.StepKeepsInv | mcpmux/internal/mcpmux/proxy.go:115-316 | every step at the grain of the locks keeps bindings, registry and threads in order |
| ProxySafety.RoutingByClosureIsByName | mcpmux/internal/mcpmux/proxy.go:154-171 | at any interleaving a proxied name is bound to the very server and tool it is split into |
| ProxySafety.CallLooksUpByName | mcpmux/internal/mcpmux/proxy.go:266-274 | a call looks up the child stored under the server part of the name called, at that moment |
| ProxySafety.DeliveredByName | mcpmux/internal/mcpmux/proxy.go:266-290 | whatever reached a session was called under the name of that child's server and of the tool asked for |
| ProxySafety.DeliveredToRegistered | mcpmux/internal/mcpmux/proxy.go:266-290 | in every run, the child a call was delivered to was the one stored under the server part of the name when that very call looked it up |
| ProxySafety.ManagementToolsStay | mcpmux/internal/mcpmux/proxy.go:91-111 | the management tools are in the table at every moment, unchanged, whatever tools children report |
| ProxySafety.ManagementStays | mcpmux/internal/mcpmux/proxy.go:91-111 | at every interleaving the four names are registered with their handlers, and no other name runs one |
| ProxySafety.NoEmptyServer | mcpmux/internal/mcpmux/proxy.go:115-171 | at no interleaving is a child registered, or a tool bound, under the empty name |
| ProxySafety.OtherServersUntouched | mcpmux/internal/mcpmux/proxy.go:115-316 | no step for one server touches the registered child or a tool of another |
| ProxyAccount.AgreesUnlessHit | mcpmux/internal/mcpmux/proxy.go:115-316 | in every run, whatever overlaps: if no step unregistered another child, took or replaced a tool another child had registered, or registered one after its child's had been taken, then whenever nothing for a server is under way the table holds of it exactly the tools of its registered child until that child's callback has run, and a running child's tools are all there |
| ProxyAccount.StepKeepsAccount | mcpmux/internal/mcpmux/proxy.go:115-316 | every other step, for this server or any other, keeps the account of who has registered what |
| ProxyPerServer.OrderlyIsHarmless | mcpmux/internal/mcpmux/proxy.go:115-316 | if calls and callbacks for one server take turns, whatever those for other servers do meanwhile, no step is harmful to it |
| ProxyPerServer.ServerAgreesWhenFree | mcpmux/internal/mcpmux/proxy.go:115-316 | so in such runs the table and the registry agree about that server whenever nothing for it is under way |
| ProxyStops.DroppedIsStoppedIff | mcpmux/internal/mcpmux/proxy.go:138-193 | a child that is no longer registered, and that no thread is about to stop, has been stopped if and only if a removal took its registration |
| ProxyStops.UndoneIsNeverStopped | mcpmux/internal/mcpmux/proxy.go:138-151 | in no run is a child stopped by a handler whose registration a failed add has taken |
| ProxyRaces.RaceIsReachable | mcpmux/internal/mcpmux/proxy.go:115-171 | for any configuration and tools, and at every turn of the registration loop, a callback that has found its child current is reachable |
| ProxyRaces.CrashDuringRegistration | mcpmux/internal/mcpmux/proxy.go:146-171 | a crash callback landing when some tools have been registered leaves of the child's names exactly those of the later turns, so none if and only if it came after the last |
| ProxyRaces.LateFailureUnregistersReplacement | mcpmux/internal/mcpmux/proxy.go:138-144 | a run in which a late failure deletes, by name, the registration of the running child that replaced it |
| ProxyRaces.UndoHitsAnotherIff | mcpmux/internal/mcpmux/proxy.go:138-151 | in every reachable world the delete of a failed add unregisters a child not its own if and only if its own registration has been taken and the name is registered: if the name is another child's |
| ProxyRaces.CallbackHitsAnotherIff | mcpmux/internal/mcpmux/proxy.go:294-316 | in every reachable world the removal of a callback found current takes an entry of a server whose registered child is another one if and only if its child's registration has been taken since, the name given out again, and one of its tool names is registered |
| ProxyRaces.CallbackNoLongerCurrentIff | mcpmux/internal/mcpmux/proxy.go:294-316 | it takes entries although its child is no longer the current one if and only if the registration has been taken and one of its tool names is registered |
| ProxyRaces.ReloadOvertakesCallback | mcpmux/internal/mcpmux/proxy.go:297-305 | for any configuration and tools, a run in which an undisturbed reload falls between check and removal: the replacement runs, registered, with none of its tools in the table |
| ProxyRaces.LateRegistrationIff | mcpmux/internal/mcpmux/proxy.go:146-171 | in every reachable world a turn of the registration loop registers a tool for a child that is not the registered one if and only if that child's registration has been taken |
| ProxyRaces.RemovalBeforeRegistration | mcpmux/internal/mcpmux/proxy.go:146-195 | for any configuration and tools, a run in which a whole removal falls between the status check and the loop: all is over, nobody is registered, and all the tools are in the table |
| ProxyRaces.RemovalHitsAnotherIff | mcpmux/internal/mcpmux/proxy.go:180-195 | in every reachable world the removal of a child's tools takes an entry of a server whose registered child is another one if and only if the name has been given out again and one of its own child's tool names is registered |
| ProxyRaces.AddOvertakesRemoval | mcpmux/internal/mcpmux/proxy.go:115-195 | for any configuration and tools, a run in which a whole add falls between the two halves of a removal: the new child runs, registered, with none of its tools in the table |
| ProxyRefinement.AddAlone | mcpmux/internal/mcpmux/proxy.go:115-178 | an undisturbed add, turn by turn at the grain of the locks, ends where the handler taken as one step ends, for every outcome of Start |
| ProxyRefinement.RemoveAlone | mcpmux/internal/mcpmux/proxy.go:180-195 | the same for a removal, alone or as the first half of a reload |
| ProxyRefinement.ReloadAlone | mcpmux/internal/mcpmux/proxy.go:197-221 | the same for a reload, whose second half adds the configuration read before the removal |
| ProxyRefinement.CrashAlone | mcpmux/internal/mcpmux/proxy.go:294-306 | the same for a crash callback, current or late |
| ProxyRefinement.CallAlone | mcpmux/internal/mcpmux/proxy.go:266-290 | an undisturbed call under a proxied name asks the session of the child stored under the server part for the tool part, exactly if there is such a session |
| ExecTypes.DescribeExit | grpc_exec/server/server.go:184-194 | exit code and message set as in the original: 0 on success, -1 whenever there is a message |
| ExecTypes.ExitEventReports | grpc_exec/server/server.go:184-194 | the exit code of an operating system survives the conversion to int32, and the message is that of a failed Wait, else empty |
| ExecControl.StepKeepsControl | grpc_exec/server/server.go:83-202 | every step of every goroutine keeps the bookkeeping of waits, channels and causes |
| ExecInvariant.StepKeepsInv | grpc_exec/server/server.go:42-223 | every step keeps what has been sent in line with what was read |
| ExecSafety.EventGrammar | grpc_exec/server/server.go:42-223 | in every run, whatever Sends fail, the events sent are a prefix of Started Output* Exited, or the one Exited(-1) of a failed launch |
| ExecSafety.NilIffExited | grpc_exec/server/server.go:198-223 | RunCommand returns nil if and only if its last successful Send was the Exited event; any other return, a violation included, sent none |
| ExecSafety.WaitedOnce | grpc_exec/server/server.go:83-107 | a started command has been waited on exactly once when RunCommand returns, on every path, and the waiter is gone |
| ExecSafety.SendsNeverBlock | grpc_exec/server/server.go:99-153 | at most one value goes to waitCh and to protoErr, so neither sender can block |
| ExecSafety.BytesConserved | grpc_exec/server/server.go:167-182 | the payloads sent are exactly the bytes taken from the pipe, in order, in non-empty chunks of at most 4096, and all bytes written if the loop ended at end of file |
| ExecSafety.FailedReadEnds | grpc_exec/server/server.go:169-182 | after a Read that fails, with or without bytes, no run reads again |
| ExecSafety.ExitReported | grpc_exec/server/server.go:184-211 | the Exited event of a launched command reports what Wait returned, after the read loop ended |
| ExecAnswers.FailedLaunchReported | grpc_exec/server/server.go:63-74 | in every run, a launch that fails is reported by one Exited with code -1 and the message of the call that failed, which is not empty |
| ExecAnswers.ReturnedBecause | grpc_exec/server/server.go:42-54 | over whole runs: InvalidArgument is returned exactly for a missing or wrong first message, the Recv error exactly for one that could not be read, the Send error exactly if a Send failed |
| ExecAnswers.ReadTakesUpTo4096 | grpc_exec/server/server.go:167-169 | a Read takes at most 4096 bytes, and that many if they are there |
| ExecSafety.KillHasCause | grpc_exec/server/server.go:76-165 | a running command gets SIGKILL only after a forced termination, a violation, a lost client or a failed Send |
| ExecAnswers.TerminateAnswered | grpc_exec/server/server.go:126-148 | every TerminateCommand to a command not known to have exited is answered: SIGTERM without force or with a positive grace, a timer of that grace, or SIGKILL at once, and the receiver listens again |
| ExecAnswers.SignalsConserved | grpc_exec/server/server.go:83-165 | in every run, until procDone is closed, the SIGTERMs sent, timers armed and SIGKILLs sent are exactly as many as were asked for, less those whose goroutine is on its way to send them |
| ExecAnswers.LastReceived | grpc_exec/server/server.go:112-154 | after the end of the client's side, a broken stream or a violation no run receives anything more |
| ExecSafety.UnprovokedNeverKills | grpc_exec/server/server.go:112-165 | a run without a forced termination, a violation, a broken stream, a disconnect or a failed Send never kills a running command, even if the client closes its side |
| ExecSafety.GroupIsSwept | grpc_exec/server/server.go:93-107 | no command outlives its call: when RunCommand returns, a started command has exited and its group has had a SIGKILL; a violation is reported only after one |
| ExecSafety.NothingHangs | grpc_exec/server/server.go:83-182 | once the waiter has delivered, a read can end even if an escaped process keeps the pipe open, and the receive from waitCh, the watcher and every timer can end |
| ExecLiveness.ObligedCanStep | grpc_exec/server/server.go:42-223 | a goroutine that fairness obliges to move has an enabled step, a Read that fails at once included |
| ExecLiveness.StepRank | grpc_exec/server/server.go:42-223 | no step of any goroutine leads away from the return, and that of the goroutine it depends on leads closer |
| ExecLiveness.RunCommandReturns | grpc_exec/server/server.go:42-223 | in every fair run RunCommand returns after its first message if a started command exits and reads fail from some time on after the deadline, whoever keeps the pipe open |
| ExecSafety.OnlyStartLaunches | grpc_exec/server/server.go:42-56 | unless the first message is a StartCommandRequest, no run launches or sends anything, nor returns nil |
| ExecSafety.ExitSilencesReceiver | grpc_exec/server/server.go:114-148 | once procDone is closed and the receiver is not already past its check, no later step sends SIGTERM, arms a timer or kills for a broken stream |
| ExecSafety.TimersNeverLapse | grpc_exec/server/server.go:139-145 | along every run a grace timer that was pending is over only if the run contains its own killing step or the exit is known |
| ExecAfterExit.KillsAfterExitBounded | grpc_exec/server/server.go:99-165 | once procDone is closed, along every run the waiter, the main goroutine, the watcher and each pending timer send at most one more SIGKILL each, and the receiver at most one, or two if it is acting on an event with force |
| ExecAfterExit.KillsAfterExitIff | grpc_exec/server/server.go:99-182 | once procDone is closed some run sends another SIGKILL if and only if one of these is still in a position to, the main goroutine only while bytes are or may still be there to send |
| ExecAfterExit.TimerAfterExitWitness | grpc_exec/server/server.go:139-145 | a run in which the select takes the expired timer although procDone is closed |
| ExecSafety.ViolationReportedIff | grpc_exec/server/server.go:196-202 | the violation is returned exactly when the receiver has reported it before the select |
| ExecSafety.ViolationLostWitness | grpc_exec/server/server.go:149-153 | a run that returns nil although the receiver has killed the command for a violation |
| Termination.FirstKillAtEarliestDeadline | grpc_exec/server/server.go:127-148 | while the command runs, SIGKILL has been sent exactly if a deadline of a force event has passed, first at the earliest of all deadlines |
| TimedExec.FirstKillOnTime | grpc_exec/server/server.go:127-148 | the same in every run of all the goroutines, as long as the client neither breaks, violates nor leaves the stream: while the command runs the first SIGKILL comes at the earliest deadline, and has come when the clock is past it |
| TimedExec.ClockMovesOn | grpc_exec/server/server.go:127-148 | in every timed run the clock is never held up for ever: what it waits for, a due timer or an event at hand, has an enabled step |
| Termination.ActIsStepOn | grpc_exec/server/server.go:127-148 | the receiver of the interleaved model and the clockwork answer an event with the same signals and the same timer |
| Termination.ExpiryKillsOnce | grpc_exec/server/server.go:139-145 | in the interleaved model an expired timer sends one SIGKILL and is over |
| Termination.DeadlineNeverPostponed | grpc_exec/server/server.go:134-148 | no later event postpones the deadline of an earlier one |
| Termination.NoKillAfterExit | grpc_exec/server/server.go:130-145 | on the clockwork, where the exit settles every pending timer at once: after it neither timers nor later events send a signal |
| Termination.SoftEventsNeverKill | grpc_exec/server/server.go:135-136 | dropping the events without force changes no SIGKILL and no timer |
| Termination.SigTermOnReceipt | grpc_exec/server/server.go:135-138 | SIGTERM is sent exactly when an event without force, or with a positive grace period, is received |
| OutputLoop.PumpOutput | grpc_exec/server/server.go:167-182 | each payload is a fresh copy that later overwrites of the buffer do not reach, and together they are the bytes of all reads up to the first error |
| Client.ReceiveLoop | grpc_exec/cmd/grpc_exec/main.go:101-122 | the loop comes to the outcome whose meaning the two theorems below state |
| Client.ExitedDecides | grpc_exec/cmd/grpc_exec/main.go:110-121 | the first Exited decides code and message, what was printed is the output before it, and nothing after it counts |
| Client.EndDecides | grpc_exec/cmd/grpc_exec/main.go:101-122 | without an Exited all output is printed, and the end of the stream decides: an error returns 1, a clean end 0 |
| Client.EndToEnd | grpc_exec/cmd/grpc_exec/main.go:101-122 | composed with any run that returns nil, the client prints exactly the bytes the server read, returns the code and shows the message of ExitInfo, a failed launch always having one, and never falls through |
| Client.FailureReachesClient | grpc_exec/cmd/grpc_exec/main.go:106-109 | composed with any run that fails, and any delivered prefix of its events, the client returns 1 |

## Left out

- The MCP SDK, gRPC, os/exec, pipes and signals: their calls are steps with arbitrary answers, under the contracts stated at `ChildLiveness.Obliged`, `ChildLifecycle.ListNext` and `ExecServer.ReadAllowed`.
- ChildLiveness.EveryStopReturns: assumes that Connect and ListTools return once their context is cancelled, that a ListTools call made with a cancelled context fails, and that Close, Kill and Wait return.
- Registry.Proxy.HandleAddServer: takes the outcome of Child.Start as an argument; what Start can come to is the subject of the Child modules.
- RegistryAgreement.TableAgreesWithRegistry: takes each management handler and each callback as one step; at the grain of the locks agreement holds in every run without a harmful step (ProxyAccount), so for each server whose calls and callbacks take turns (ProxyPerServer), and can fail otherwise, a callback against one single reload being enough (ProxyRaces).
- RegistryAgreement.LateCallbackAfterReload: takes check and removal as one step; a reload between the two is ProxyRaces.ReloadOvertakesCallback.
- ProxyAccount.AgreesUnlessHit: assumes of a child's changes what the Child modules prove: ChildSafety.StatusMovesForward, ToolsFixed, StartReturnsItsTools and CrashCallbackOnce. The proxy and the Child models are not composed into one.
- Termination.NoKillAfterExit: holds on the clockwork only; in the code an expired timer, an event past its check, a violation or a disconnect can still kill after the exit, as ExecAfterExit counts and decides.
- Termination.FirstKillAtEarliestDeadline: takes the timers on their own, each event and each tick as one step.
- TimedExec.FirstKillOnTime: assumes prompt timers and prompt handling of events, in that the clock waits for both; it does not cover runs in which another cause kills the command.
- ExecLiveness.RunCommandReturns: assumes that Pipe, Start, Send, Kill and SetReadDeadline return, Wait once the command has exited, and Read once the deadline is set.
- ChildState.Child.StartExit: does not close startDone; the close is part of the step in ChildLifecycle, where it is shown to happen once.
- Proxy.Shutdown: it empties the registry without touching the tool table and ends the process.
- The texts of replies to tool calls and of log messages; the name of the server or call a reply is about is modelled, its wording is not.
- Random command ids, pids, start times, uptime, environment merging, JSON rendering, logging and prefixWriter.
- Flag parsing, socket dialling and the error output of the client.
- ShellQuote.ShellRoundTrip: covers token recognition and quote removal; a line with operators, comments or expansions is outside the lexer and gets no words.
- wsb, sandbox and command_filter: file-system and process plumbing, a configuration message, and a specification without code.
