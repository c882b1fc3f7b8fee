# FireFly CLI: verified model of the stack planner

FireFly CLI plans a network of FireFly members on Docker Compose before it touches Docker, and then drives that network
through its life. This project models the planning and the driving in Dafny and proves what they keep. The number of
members, the token providers, the options and the failures of the outside world are arbitrary throughout.

| file | part of the system |
|---|---|
| `Types.dfy`, `Wrappers.dfy`, `Decimal.dfy`, `Names.dfy` | the stack description; decimal IDs; names of services, containers and volumes |
| `Ports.dfy` | host port allocation at init, as a class with the member loop |
| `ComposeSpec.dfy`, `ComposeFacts.dfy`, `ComposeExact.dfy` | what the compose file is meant to be, service by service, and the proof that building it step by step arrives there |
| `Compose.dfy` | the builder: service objects and depends-on maps on the heap, edited in place and partly shared |
| `ComposeGraph.dfy`, `ComposeContents.dfy` | the dependency graph, sizes and volumes of the file; for every image, volume and variable, which services have it |
| `HostPorts.dfy`, `PreCheck.dfy`, `Endpoints.dfy` | published ports against the allocation, the port check before a start, and every URL against the file |
| `LifecycleSpec.dfy`, `Volumes.dfy`, `Lifecycle.dfy`, `SetupSteps.dfy`, `Phases.dfy`, `Endings.dfy`, `StackManager.dfy` | setup, start, stop and reset over an abstract disk on which every step may fail: the steps and their order, what is left on disk, what is reported; the commands themselves as methods of a class |
| `Capture.dfy` | capturing a command's output: a main loop and two readers over unbuffered channels |
| `Pull.dfy` | the image list, pulling with retries |
| `Genesis.dfy` | the Clique genesis block against EIP-225 |
| `Version.dfy`, `Replace.dfy` | the upgrade check and the text replacement of images |
| `Contracts.dfy` | the member count, and where contracts are copied from |

The outcomes of Docker, file system, HTTP and key generation calls are parameters: a function from steps to outcomes for
the lifecycle, a function from attempts to outcomes for pulls, the account creation results for init, the order in which
Go lists a map for the removal of volumes. A step that fails may leave none, half or all of its work behind.

Several things the code relies on hold only under a condition. Each is stated with the exact condition, and with a witness where it fails:

- Host ports are distinct while the services ranges of the members do not meet, which for every base and number of
  members is a condition on the base's hundreds and the rest. With the default flags each provider has its bounds: 90
  members with tessera, 101 with fabric, 100 with the others, and offsets below 10 for quorum, up to the ports of the
  orderer, the tezos signer and Prometheus for the others.
- A runtime directory stands for a completed setup unless rollback was switched off (`--no-rollback`) or setup crashed.
  It crashes when the deployment of the FireFly contract returns neither a contract nor an error, which evmconnect's
  client can do (`internal/blockchain/ethereum/connector/evmconnect/client.go`, lines 102 to 108), because the location
  of the contract is read regardless (`internal/stacks/stack_manager.go`, line 972). No rollback happens then.
- With a preset contract address setup ends before the token services are initialized and before the state is saved.
- Token services are told the contract of their own provider; ERC1155 providers deploy under one name, so theirs all get
  the last one's.
- The sandbox and the Prometheus configuration name the core of every member, external ones included, for which the
  compose file has no service. The connectors' own configuration tells the two apart.
- Reset does not know of the volumes for evmconnect's and tezosconnect's configuration, which setup fills although the
  services mount the file instead, nor of the core data volumes of external members.
- Captured output may be cut in every mode, because the main loop stops when stderr closes, in verbose and log mode also
  when stdout does, however many lines of the other pipe are still to come; nothing is lost exactly if there are none. A
  last line without a newline is dropped in every mode.
- The genesis names the wrong signers from two members on. Besu's provider always passes one.
- The upgrade check orders patch numbers as strings.
- Replacing images one after the other gives the intended file exactly if the passes carry each old image, on its own,
  to the new one. Releases that name images by digests of their own meet that. A manifest of the user's own need not: a
  local image whose name is part of another local image's destroys it. (The manifest upgraded to is always a release's,
  `internal/stacks/stack_manager.go`, line 1114.)
- The user's environment variables win over the CLI's, except over the address of a deployed token factory.

Run `dafny verify dfyconfig.toml` in this directory to check everything.

## Model

| member | source | states |
|---|---|---|
| `Ports.StackBuilder.CreateMember` | internal/stacks/stack_manager.go:564-610 | Every port of a member is the planned one for its use, in closed form: three of them carry the services base twice; a failing account creation is passed on and nothing is made |
| `Ports.StackBuilder.InitMembers` | internal/stacks/stack_manager.go:186-199 | The member list is complete, numbered and has one account slot per member exactly if every account can be created; otherwise the loop stops at the first failure and reports it |
| `Ports.ServicePortsDistinctExactly` | internal/stacks/stack_manager.go:564-608 | For every number of members and every base from 0 up the services ports, doubled ones included, are pairwise distinct if and only if (from two members on) the offsets stay at or below 100, the base modulo 100 is not from 1 to the last offset less 5 while there is a member numbered base / 100, and it is not 94 or more while there is a member numbered base / 100 + 1; one member needs only a base that is not from 1 to its last offset less 5 |
| `Ports.UnalignedBaseCollides` | internal/stacks/stack_manager.go:581-595 | Witness: with base 103 member 0's data exchange port is member 1's first token port |
| `Ports.DefaultPortsDistinctExactly` | internal/stacks/stack_manager.go:564-608 | With the default bases all ranges together are distinct if and only if there are at most 90 members and the offsets stay at or below 100; member 90's private transaction manager port is member 0's FireFly port |
| `Ports.QuorumPortsFreeExactly` | internal/blockchain/ethereum/quorum/quorum_provider.go:284-299 | Quorum's RPC ports, ten apart, miss every services port if and only if the offsets end below 10 |
| `Ports.QuorumDefaults` | internal/blockchain/ethereum/quorum/quorum_provider.go:292 | One token provider and the sandbox just fit; switching Prometheus on puts node 1 on member 0's first token port 5110 |
| `HostPorts.PublishedAsPlanned` | internal/docker/docker_config.go:96-99 | Every host port in the compose file, of any service, is the port init planned for its use |
| `HostPorts.HostPortsDistinctExactly` | internal/stacks/stack_manager.go:227-254 | No two published ports of the compose file coincide if and only if the plan keeps the published uses apart, quorum's stride, Prometheus and the literal ports included |
| `HostPorts.DefaultHostPortsDistinctExactly` | internal/stacks/stack_manager.go:564-608 | With the default flags no two services publish the same host port if and only if the stack keeps the bounds of its provider: 90 members with tessera, 101 with fabric, else 100; offsets up to 9 for quorum, and else below what they run into first, which depends on the number of members |
| `HostPorts.FittingPortsDistinct` | internal/stacks/stack_manager.go:564-608 | Within those bounds that holds whatever members are external |
| `HostPorts.FabricPortTaken` | internal/blockchain/fabric/fabric_docker.go:52-78 | Witness at the bound: at offset 50 a token port of member 19 is the orderer's fixed port 7050 |
| `PreCheck.CollectPorts` | internal/stacks/stack_manager.go:789-815 | The list of ports that are tried, in order |
| `PreCheck.ListInOrder` | internal/stacks/stack_manager.go:789-815 | The blockchain port first, then the ports of the members one after the other, that of Prometheus last |
| `PreCheck.CheckPortsAvailable` | internal/stacks/stack_manager.go:817-827 | The check passes if and only if every port on the list is available; otherwise it names the first that is taken, or passes on the error of its probe |
| `PreCheck.PublishedPortTried` | internal/stacks/stack_manager.go:789-827 | Every published port is tried, for any bases and any number of members, except RPC ports of quorum nodes after the first and ports written down in the code |
| `PreCheck.TriedExactly` | internal/stacks/stack_manager.go:789-827 | With the default flags and within those bounds a published port is tried if and only if it is not one of those |
| `PreCheck.ListExactly` | internal/stacks/stack_manager.go:789-815 | While no two planned ports coincide, a planned port is on the list if and only if it is neither a connector's metrics port nor, for an external member, the FireFly, SPI or metrics port: a core that already runs outside does not hold up a start |
| `PreCheck.ForgottenServices` | internal/blockchain/ethereum/quorum/quorum_provider.go:292 | Which services these are; none for geth, besu, a remote node and a remote fabric network |
| `Names.ServiceNameInjective` | internal/stacks/stack_manager.go:234-236 | Two services with the same name are the same service: decimal member numbers and token indices are read back from the name |
| `Names.VolumeNameInjective` | internal/stacks/stack_manager.go:237-240 | Two volumes with the same name are the same volume |
| `Names.ContainerNameInjective` | internal/docker/docker_config.go:95 | Within a stack two services with the same container name are the same, tessera's different scheme included |
| `Names.ServicesWrittenOut` | internal/docker/docker_config.go:92-95 | The names of all services and containers, spelled out |
| `Names.VolumesWrittenOut` | internal/docker/docker_config.go:109-200 | The names of all volumes, spelled out |
| `Compose.ConcatenateWithProvided` | pkg/types/stack.go:114-123 | The service's own variables overlaid with the user's |
| `Compose.FindDeployedAddress` | internal/tokens/erc20erc721/erc20_erc721_provider.go:85-93 | Either no deployed contract has the name and the address is empty, or it is the address of the last one that has it |
| `Compose.ConnectorDefinitions` | internal/blockchain/ethereum/connector/evmconnect/docker.go:26-55 | One service per member as described, all of them sharing one depends-on map |
| `Compose.QuorumNodeDefinitions` | internal/blockchain/ethereum/quorum/quorum_provider.go:267-299 | The nodes, each waiting for its tessera if there is one, the tesseras, and the services connectors wait for |
| `Compose.FabconnectDefinitions` | internal/blockchain/fabric/fabric_provider.go:272-316 | One fabconnect per member with a depends-on map of its own |
| `Compose.ExtraDefinitions` | internal/stacks/stack_manager.go:228-232 | All provider and token services, equal to the description service by service |
| `Compose.DockerComposeConfig.AddEdge` | internal/stacks/stack_manager.go:243-250 | An edge is added to one core; no other service changes, although services may share depends-on maps |
| `Compose.CreateDockerCompose` | internal/docker/docker_config.go:81-210 | The services and volumes of the members before provider services are known |
| `Compose.BuildDockerCompose` | internal/stacks/stack_manager.go:227-254 | The compose file is the assembled one: in-place edits of shared objects have exactly the effect of the description |
| `Compose.DisableFireflyCoreContainers` | internal/stacks/stack_manager.go:1224-1233 | The assembled file with every core's entry point replaced; each core that is looked up is there |
| `ComposeExact.AssembledIsComposeOf` | internal/stacks/stack_manager.go:227-254 | Put together step by step, the file has exactly the services the stack calls for, each equal to its description with all of a core's edges, and exactly the declared volumes |
| `ComposeExact.DisablingTouchesCoresOnly` | internal/stacks/stack_manager.go:1224-1233 | Disabling gives exactly the cores the exit entry point, leaves every other service as it was, and loses no entry point of a core |
| `ComposeFacts.DeclaredExactly` | internal/stacks/stack_manager.go:237-240 | A volume is declared if and only if some service brings it along |
| `ComposeContents.ImagesExactly` | internal/docker/docker_config.go:92-200 | The other way round, for the assembled file: which manifest entry each service runs, by provider, connector and token provider, and which images are pinned |
| `ComposeContents.ReferencesExactly` | pkg/types/manifest.go:61-68 | Two entries name the same image if and only if name and digest agree, and without a digest the tag |
| `ComposeContents.MountsExactly` | internal/docker/docker_config.go:100-200 | For every volume, which service of the file mounts it |
| `ComposeContents.VariablesExactly` | internal/tokens/erc20erc721/erc20_erc721_provider.go:85-107 | For every variable of every service of the file, whether it is set and to what: the user's value, or the CLI's where it has one; the factory address is that of the last contract of the provider's name, on geth, besu and quorum only |
| `ComposeContents.KindsExactly` | internal/docker/docker_config.go:81-205 | Which services have a health check and an entry point of their own, and the container ports of each |
| `ComposeContents.DisabledCoresExit` | internal/stacks/stack_manager.go:1224-1233 | In the disabled file every internal core starts a shell that is told to exit; in the assembled one it starts its image |
| `ComposeGraph.EdgesExactly` | internal/stacks/stack_manager.go:242-251 | Who waits for whom: the edges of the file are exactly the stated ones; no connector gains one although they share a map |
| `ComposeGraph.EdgeConditions` | internal/stacks/stack_manager.go:244-250 | A healthy-edge leads to a service with a health check, and a core asks for health wherever there is one |
| `ComposeGraph.ConditionsExactly` | internal/docker/docker_config.go:110-134 | Exactly which edges wait for health |
| `ComposeGraph.ComposeWellFormed` | internal/stacks/stack_manager.go:227-254 | For every stack: all services waited for exist, all healthy-edges can be met, no service waits for itself through any chain, and no chain has more than five services |
| `ComposeGraph.DisabledComposeWellFormed` | internal/stacks/stack_manager.go:1224-1233 | The same of the file that first-time setup runs on |
| `ComposeGraph.ComposeSize` | internal/stacks/stack_manager.go:234-236 | The number of services is the exact sum of the parts, so none overwrites another |
| `ComposeGraph.NoServiceOverwritten` | internal/stacks/stack_manager.go:234-236 | The same with the names written out as strings |
| `ComposeGraph.NoContainerTwice` | internal/docker/docker_config.go:95 | No two services ask for the same container name |
| `ComposeGraph.MountsDeclaredExactly` | internal/blockchain/fabric/fabric_docker.go:26-130 | Every mounted named volume is declared, by some service, if and only if it is not a local fabric network without members |
| `ComposeGraph.DeclaredMountedExactly` | internal/blockchain/fabric/fabric_docker.go:26-50 | A declared volume is mounted by some service if and only if it is not fabric_ca |
| `ComposeGraph.UserVariablesWin` | internal/tokens/erc20erc721/erc20_erc721_provider.go:95-107 | Every service sees every variable of the user with the user's value, if and only if it is not the factory address of a token service that was deployed with another value |
| `Endpoints.CoreConfig.constructor` | internal/core/config.go:29-137 | The addresses of a fresh core config, by service name or by host port, and the path of its database file |
| `Endpoints.CoreConfig.AddPlugins` | internal/stacks/stack_manager.go:457-474 | One blockchain plugin and the token plugins in order are added |
| `Endpoints.WriteCoreConfig` | internal/stacks/stack_manager.go:454-474 | The config has exactly the addresses chosen for the member, its ports and one token plugin for each provider; without a database service an internal core's database lies in db on the volume that its own service and no other mounts, an external one's in the runtime directory under the member's ID |
| `Endpoints.RuntimeFilesDiffer` | internal/core/config.go:163-169 | Two external members never share a database file |
| `Endpoints.AddressesResolve` | internal/core/config.go:139-177 | If no host port is published twice, each address leads to the right container port of the right service and to nothing else, in either form |
| `Endpoints.NodeUrlResolves` | internal/blockchain/ethereum/connector/evmconnect/config.go:132-134 | A connector finds its node or signer under the configured name and does not start before it |
| `Endpoints.TokensReachConnector` | internal/tokens/erc20erc721/erc20_erc721_provider.go:98-104 | A token service finds its own member's connector and does not start before it |
| `Endpoints.CoreUrlResolves` | internal/blockchain/ethereum/connector/evmconnect/config.go:157-163 | A connector reaches an internal core by name; the host port of an external core is published by no service |
| `Endpoints.SandboxResolvesExactly` | internal/docker/docker_config.go:184-193 | The sandbox's endpoint is a service of the file if and only if the member is not external |
| `Endpoints.GeneratePrometheusTargets` | internal/stacks/prometheus_config.go:41-66 | The targets are every core and, if the connector is evmconnect, every connector, in member order |
| `Endpoints.ScrapeTargetsPresentExactly` | internal/stacks/prometheus_config.go:41-66 | Every scrape target is a service of the file if and only if no member is external |
| `Endpoints.UnlockPorts` | internal/blockchain/ethereum/quorum/quorum_provider.go:187-216 | Each account is unlocked on the node of the first member that has it, on node 0 if none has |
| `Endpoints.UnlockedOnOwnNode` | internal/blockchain/ethereum/quorum/quorum_provider.go:195-216 | For an account of a member that port is published by the node of the first member with the account, and by nothing else |
| `Volumes.VolumeListExact` | internal/stacks/stack_manager.go:719-732 | The list removeVolumes goes through, with its repetitions, names exactly the declared volumes |
| `Volumes.VolumesInOrder` | internal/stacks/stack_manager.go:719-732 | The definitions' volumes come first, each definition's behind those before it, and the compose file's last |
| `Volumes.RemovalExact` | internal/stacks/stack_manager.go:733-740 | Removal succeeds if and only if no declared volume that exists is held back; then exactly the declared volumes are gone, and others are never touched |
| `Volumes.RemovalIdempotent` | internal/stacks/stack_manager.go:733-740 | Doing it again, in any order and whatever could fail, succeeds and changes nothing |
| `Volumes.CreatedBySetup` | internal/stacks/stack_manager.go:962-1006 | A complete setup creates exactly the declared volumes and those that a reset does not know of |
| `StackManagers.StackManager.LoadState` | internal/stacks/stack_manager.go:353-393 | The state in memory after loading; a damaged file is an error |
| `StackManagers.StackManager.RunFirstTimeSetup` | internal/stacks/stack_manager.go:867-1050 | Setup with its early returns is the list of its steps run until the first failure |
| `StackManagers.StackManager.RemoveVolumes` | internal/stacks/stack_manager.go:719-740 | Removing the volumes one after the other, missing ones ignored |
| `StackManagers.StackManager.ResetStack` | internal/stacks/stack_manager.go:763-777 | Containers down, runtime directory removed, volumes removed, stopping at the first failure |
| `StackManagers.StackManager.StartStack` | internal/stacks/stack_manager.go:612-653 | Setup or restart, and roll back after a failed setup unless told not to |
| `StackManagers.StackManager.RunStartupSequence` | internal/stacks/stack_manager.go:742-757 | Prepare, compose up, finish, stopping at the first failure |
| `Lifecycle.SetupEndsExactly` | internal/stacks/stack_manager.go:867-1050 | Setup crashes if and only if it gets as far as a contract deployment that returns neither a contract nor an error; it completes if and only if that is not so and no step fails |
| `Lifecycle.SetupEffect` | internal/stacks/stack_manager.go:867-1050 | What any setup leaves: nothing is complete before its end, and at its end the compose file, the state file and the state in memory are the intended ones |
| `SetupSteps.SetupStepsExactly` | internal/stacks/stack_manager.go:867-1050 | The steps of setup: a condition for each kind of step, by provider and flags, says exactly when it is in the list, and the list holds them in a fixed order, each once |
| `SetupSteps.TokenContractsInOrder` | internal/stacks/stack_manager.go:913-950 | On geth, besu and quorum a complete setup has deployed for every token provider, a failure would have stopped it, and the deployed list holds their contracts in order behind what was there, FireFly's own last |
| `SetupSteps.TokenContractsSaved` | internal/stacks/stack_manager.go:1048-1050 | That list is saved with the accounts, except with a preset contract address |
| `SetupSteps.NoTokenContracts` | internal/stacks/stack_manager.go:1336-1359 | On a remote node, tezos and fabric setup is the same whatever the deployment of token contracts would have given |
| `SetupSteps.FactoryReachesServices` | internal/tokens/erc20erc721/erc20_erc721_provider.go:85-107 | After a complete setup the services of an ERC20/ERC721 provider have the address of the factory that this provider deployed, FireFly's contract notwithstanding |
| `SetupSteps.LastContractReachesAll` | internal/tokens/erc1155/erc1155_provider.go:85-102 | ERC1155 providers deploy under one name, so the services of all of them have the address of the last one's contract |
| `Lifecycle.FirstStartAtRestExactly` | internal/stacks/stack_manager.go:612-653 | When rolling back works, one first start with arbitrary failures leaves the stack at rest if and only if it neither crashed nor stopped with rollback switched off and something left behind |
| `Phases.AtRestExactly` | internal/stacks/stack_manager.go:612-777 | After every sequence of starts, stops and resets in which any step may fail in any way, a runtime directory means a completed setup and real cores if and only if the last phase is not a broken one; the phase is computed from the commands and the outcomes of their steps alone |
| `Phases.PhaseAfterCommand` | internal/stacks/stack_manager.go:612-777 | One command takes the stack on disk to the phase computed for it: a failed or crashed first setup breaks it, only a rollback or reset that works mends it, and a ruined state file stops every later command |
| `Phases.AlwaysAtRest` | internal/stacks/stack_manager.go:612-777 | In particular that holds after every sequence of commands that roll back, while rolling back works and setup does not crash |
| `Endings.StartEndsExactly` | internal/stacks/stack_manager.go:612-653 | What a start reports, for any failures: running if and only if every step needed succeeded and setup did not crash, and then there is a runtime directory; rolled back, or failed to, if and only if setup stopped, rolling back was not switched off, and the reset worked, or did not; every error is that of the first step that failed |
| `Endings.ResetEndsExactly` | internal/stacks/stack_manager.go:763-777 | A reset succeeds if and only if containers, directory and every declared volume that exists can be removed; otherwise it reports the error of what failed first |
| `Lifecycle.RealCoresRun` | internal/stacks/stack_manager.go:1008-1012 | In such a file every internal member's core is present and keeps its image's entry point |
| `Lifecycle.StuckUntilReset` | pkg/types/stack.go:70-99 | A stack with a runtime directory over disabled cores stays so under any commands but reset, and every internal core of it exits at once |
| `Lifecycle.StuckIsNotReal` | internal/stacks/stack_manager.go:1224-1233 | With an internal member a stuck stack never has the real cores |
| `Lifecycle.NoRollbackThenStart` | internal/stacks/stack_manager.go:626-634 | Witness: without rollback a failed pull leaves such a stack, and the next start reports success |
| `Lifecycle.ResetUnsticks` | internal/stacks/stack_manager.go:763-777 | A reset whose steps work makes the next start run setup again |
| `Lifecycle.UnreadableStateStays` | internal/stacks/stack_manager.go:365-393 | With an unreadable state file no command changes anything, reset included |
| `Lifecycle.SetupStateSaved` | internal/stacks/stack_manager.go:953-958 | After a complete setup the accounts and deployed contracts are the expected ones in order; loading them again gives the same, except with a preset contract address, where the copy from init is found |
| `Lifecycle.AccountsInOrder` | internal/stacks/stack_manager.go:870-874 | The accounts of setup are those of the members that have one, in member order |
| `Lifecycle.LeftAfterReset` | internal/stacks/stack_manager.go:962-1006 | What setup creates and reset leaves is exactly the connector configs of evmconnect and tezosconnect and the core data of external members; a setup that stopped half way leaves no more |
| `Capture.CaptureSafe` | internal/docker/docker.go:143-186 | At any time the buffer interleaves whole lines of both pipes from the front and in order; leaving the loop because a pipe closed means all its lines are there; in quiet mode it is left for stderr only |
| `Capture.ReturnedErrors` | internal/docker/docker.go:174-175 | A returned error is that of the launch, or of a pipe that broke |
| `Capture.ClosedOnce` | internal/docker/docker.go:206-223 | In any run each channel is closed at most once, and exactly once if its reader is done |
| `Capture.StepLowersWeight` | internal/docker/docker.go:155-178 | Every step brings the end nearer except the busy wait on a closed stdout, which changes nothing |
| `Capture.NeverBlocked` | internal/docker/docker.go:155-178 | While the main loop runs some step other than that busy wait is possible |
| `Capture.CaptureEnds` | internal/docker/docker.go:143-223 | There is a bound from the pipes' texts on all steps but busy waiting, and a run that can only wait has left the main loop |
| `Capture.AnyCutPossible` | internal/docker/docker.go:155-178 | In every mode, whatever the pipes hold: a run can leave the loop through a closed pipe with any number of the other pipe's lines received |
| `Capture.OtherCompleteExactly` | internal/docker/docker.go:155-178 | Every run that leaves the loop through a pipe has received all lines of the other one as well if and only if the other one has no lines, or no run leaves that way |
| `Pull.RunDockerCommandRetry` | internal/docker/docker.go:75-88 | Attempts up to the first success, or all that are allowed; a negative number of retries still means one attempt |
| `Pull.CollectImages` | internal/stacks/stack_manager.go:655-698 | The images to pull in order, local manifest images left out |
| `Pull.Puller.PullStack` | internal/stacks/stack_manager.go:700-717 | Each distinct image is pulled once in order within the allowed attempts; on failure the pulled images are a prefix and the next one failed on every attempt |
| `Pull.OccurrencesExact` | internal/stacks/stack_manager.go:700-717 | That order holds every image of the list exactly once |
| `Pull.PullCovers` | internal/stacks/stack_manager.go:655-698 | Every image of the compose file is pulled, apart from local manifest images and that of Prometheus |
| `Pull.PulledExactly` | internal/stacks/stack_manager.go:655-717 | Exactly which images are pulled |
| `Pull.PullOrder` | internal/stacks/stack_manager.go:655-698 | The manifest's images in a fixed order, then shared storage, database and sandbox, then what provider and token services add |
| `Pull.PrometheusNotPulled` | internal/stacks/stack_manager.go:666-698 | The Prometheus image is pulled only if the manifest names it |
| `Genesis.CreateGenesis` | internal/blockchain/ethereum/geth/genesis.go:64-106 | The genesis of geth, quorum and besu: every address gets the balance, and the extra data is the padded concatenation |
| `Genesis.DecodeEncode` | internal/blockchain/ethereum/geth/genesis.go:64-76 | The layout of EIP-225, section Specification, loses nothing: encoding and decoding give back any signer list |
| `Genesis.ExtraDataShape` | internal/blockchain/ethereum/geth/genesis.go:68-76 | Vanity, addresses, zeros: the padding changes nothing else |
| `Genesis.ExtraDataLength` | internal/blockchain/ethereum/quorum/genesis.go:69-77 | The length is the larger of 236 and 66 + 40n, a legal layout if and only if n is at most 4 |
| `Genesis.DecodedSigners` | internal/blockchain/ethereum/geth/genesis.go:68-76 | A client reads exactly the first max(1, n-4) addresses as signers |
| `Genesis.LostSignersInSeal` | internal/blockchain/ethereum/geth/genesis.go:68-76 | From two to four members the others end up in the seal |
| `Genesis.ExactForOneMember` | internal/blockchain/ethereum/besu/genesis.go:72-84 | The written genesis is the encoding of all members under an empty seal if and only if there is one member |
| `Version.AcceptedReflexive` | internal/core/manifest.go:132-147 | A version is accepted over itself if and only if it has three parts |
| `Version.AcceptedTransitive` | internal/core/manifest.go:132-147 | Accepted upgrades compose |
| `Version.AcceptedWithinOneLine` | internal/core/manifest.go:132-147 | Two versions can be upgraded one way if and only if major and minor agree, both ways if and only if the third part does too |
| `Version.BelowIsLessAtEqualLength` | internal/core/manifest.go:140-143 | String order is numeric order on numerals of equal length |
| `Version.AcceptedReleases` | internal/core/manifest.go:132-147 | Between releases the check agrees with numeric precedence (Semantic Versioning 2.0.0, section 11.2) if and only if the leading digits of the patch numbers are in order |
| `Version.ReleaseVerdicts` | internal/core/manifest.go:132-147 | Another major or minor number is reported as no patch upgrade, whichever is higher; only a third part that is below, as strings go, as a downgrade |
| `Version.NotPatchExactly` | internal/core/manifest.go:132-147 | A version without three parts, or another first or second part, is reported as no patch upgrade, and nothing else is |
| `Version.TrimExactly` | internal/core/manifest.go:133-134 | Every v goes at either end of a version, and nothing else does |
| `Version.NineAndTen` | internal/core/manifest.go:141-143 | Witness: 1.2.9 to 1.2.10 is refused as a downgrade, the way back is accepted |
| `Version.PreReleaseInverted` | internal/core/manifest.go:132-147 | A release may be replaced by its own pre-release, and not the other way round, against section 11.3 |
| `Replace.LineByLine` | internal/stacks/stack_manager.go:1135-1145 | Replacing a string without newlines works line by line |
| `Replace.InterleavePieces` | internal/stacks/stack_manager.go:1144 | Replacing the empty string puts the new one at every place between characters |
| `Replace.PassesActOnImages` | internal/stacks/stack_manager.go:1135-1182 | In a file of clean text and any images the passes carry each image to where they carry that image alone, and leave all other text as it is |
| `Replace.UpgradesExactly` | internal/stacks/stack_manager.go:1135-1182 | For all manifests: every file of clean text and old images comes out with the new images in their place if and only if the passes carry each old image alone to its new one |
| `Replace.LeftAloneExactly` | internal/stacks/stack_manager.go:1144 | A pass leaves a text as it is if and only if it looks for nothing that occurs in it, or puts back what it finds |
| `Replace.StepByStepExactly` | internal/stacks/stack_manager.go:1135-1182 | After every single pass exactly the entries so far have their new images if and only if no pass that changes something finds its old image inside another entry's old image that is still to come or new image that is already there; then the outcome is the intended one |
| `Replace.DisturbedYetCarried` | internal/stacks/stack_manager.go:1135-1182 | Witness that the outcome can be the intended one without that: an earlier pass does a later one's work |
| `Replace.UpgradeAndBack` | internal/stacks/stack_manager.go:1135-1182 | If the passes carry each image to its new one and back, going back gives the old file |
| `Replace.ReplaceVersions` | internal/stacks/stack_manager.go:1135-1182 | The nine passes, tezosconnect's only if the old manifest has it; a missing entry ends the program, exactly then |
| `Replace.DigestsOccurExactly` | pkg/types/manifest.go:61-68 | An image named by digest is part of another one if and only if the digests are the same and the other name ends in its name |
| `Replace.UpgradeByDigest` | internal/stacks/stack_manager.go:1096-1182 | Between manifests that name all images by digest, old digests pairwise different and none looked for after it was put in, replaceVersions rewrites every file as intended |
| `Replace.DigestsExactly` | internal/stacks/stack_manager.go:1135-1182 | With new digests that belong to one entry each: every file comes out as intended if and only if no entry has the digest of a later one under a name in which the later name ends |
| `Replace.LocalImagesInterfere` | internal/stacks/stack_manager.go:1096-1182 | A user's manifest with firefly by digest and ethconnect and evmconnect as the local images connect and evmconnect: evmconnect's service comes out of replaceVersions with ethconnect's new image behind evm |
| `Replace.InterferenceReached` | internal/core/manifest.go:112-130 | Witness: two concrete manifests of that kind |
| `Contracts.MemberCount` | cmd/init.go:108-120 | The count is the number typed; which of the three errors is reported is exact; a validated count exceeds the external processes and zero; an ended prompt gives zero, and a count set before is not looked at |
| `Contracts.AtoiExactly` | cmd/init.go:108-120 | A number is read if and only if the input denotes it, perhaps behind a sign, and it fits into 64 bits |
| `Contracts.SourceContainer` | internal/blockchain/ethereum/ethereum.go:55-66 | The container of the first internal member, an error if and only if there is none |
| `Contracts.ContractSourceExists` | cmd/init.go:171-180 | There is an internal member if and only if the external processes are fewer than the members; it is number max(0, external), and the compose file defines its core and token containers |
| `Contracts.SelectPackage` | internal/blockchain/fabric/fabric_provider.go:546-560 | The last installed package with a fitting label is chosen, an error if and only if there is none |
| `Contracts.SelectsExactly` | internal/blockchain/fabric/fabric_provider.go:549-556 | A label fits if and only if it is the name, or the name, an underscore and more |

## Left out

- Key and certificate generation, swarm keys, tessera keys, keystores: addresses are opaque strings of 40 characters.
- YAML and JSON encoding, and the merging of extra configuration: the compose file is a value, the stack file is read back as written.
- What services are beyond image, ports, volumes, environment, health check, dependencies and entry point: commands, bind mounts, logging, the contents of health checks, deploy policies and platforms. Whether an address is served inside a container is taken from the published ports.
- The constant environment of fabric's own services; the model gives them the user's variables only.
- Names of services and volumes are structured values in the model; `Names.dfy` writes them out and shows that no two coincide. That two different stacks do not share volume names is not stated.
- Integer overflow of ports, and ports above 65535.
- Compose.FindDeployedAddress: models contracts deployed by the running process, whose location is a map of strings; the Go code does not recognise the form that a location has after it was read from a file. The file is only ever built before and during setup.
- Compose.DockerComposeConfig.AddEdge: the fixed part of a service and the reference to its depends-on map are constants of the object; the Go code never assigns them later.
- Provider names: the legacy spellings that getBlockchainProvider rewrites are not modelled, the provider is one of six values. Token providers and the database are enumerations.
- Stacks made before the init and runtime directories existed, and the manifest entries that loading fills in for them.
- LifecycleSpec steps: a step's effect on the disk is the one the code intends; on failure the volumes it creates are there in any part, and its file is untouched, unreadable or finished. A failed removal of the runtime directory leaves the directory. docker compose up creates the declared volumes. RemoveStack is not modelled.
- Phases.AlwaysAtRest: assumes that docker compose down and the removal of the runtime directory work and that setup does not crash, since nothing else undoes a failed setup; what happens otherwise is Phases.AtRestExactly.
- Replace.UpgradesExactly: image names without blanks and newlines, behind a blank, and no mention of an image in the other text of the file; that is how the compose file is written.
- HostPorts.DefaultHostPortsDistinctExactly: the only-if half is for stacks without external members, the default; a port that the CLI plans for the core of an external member is published by nobody.
- Ports.ServicePortsDistinctExactly: bases below 0 are not ports.
- Ports.QuorumPortsFreeExactly: for bases that are multiples of 100, like the default.
- Capture: printing in verbose and log mode, cancellation, and the exit status after the loop. A pipe's text is fixed in advance.
- Filling in organisation and node names at init, and the validators of single options.
- Endpoints.UnlockPorts: the retries of a single unlock call.
- Random names, prompts, progress output, and the legacy ListStacks, PrintStackInfo and GetContracts commands.
- UpgradeStack as a sequence of steps: the version check, the text replacement and the pull are modelled one by one, what an upgrade leaves behind that stops between them is not.
- Endpoints.WriteCoreConfig: the runtime directory is a parameter and taken to be a clean path, so that joining it with a file name adds no more than a slash.
- SetupSteps.FactoryReachesServices: that a deployed contract bears the name it was deployed under is assumed of the deployment's result.
