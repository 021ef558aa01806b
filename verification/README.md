# Instance lifecycle handler: the fault-tolerant write path

The service reads instance messages (create, attach, detach, resize, delete) from a queue
and writes them into an inventory store (the CMDB) over a network that may fail. This
project models that write path in Dafny and proves what it keeps under every fault.

## How the model is laid out

* **Store and faults.** `Cmdb.dfy` is the store: servers, rails, endpoints and addresses with
  keys, the twenty requests the handler sends, and what each does and answers. A `World` is the
  store plus an unbounded tape of fates, one per request: it replies, it never arrives, it lands
  and the reply is lost, or it is refused for good. `World.crowd` is the other messages on the
  same store and what they ask for before each request of this one; every request sent is kept
  with the store it met.
* **Retry engine.** `Retry.dfy` is `_cmdb_call` and `_recover_insert`; `RetryProofs.dfy` and
  `RetryBudget.dfy` prove at-most-once inserts and request and sleep budgets; `CallLaws.dfy` says,
  from the attempts given and the fates met alone, how long a call goes on and what ends it.
* **Planning.** `Planning.dfy`, `BondNames.dfy` and `Tags.dfy` are the pure decisions, with the
  source's loops; `PlanningProofs.dfy` and `TagsProofs.dfy` prove what they mean. `CardSources.dfy`
  says which network or port each card is made of, `TagLaws.dfy` what each column is given.
* **Attach and detach.** `Attachments.dfy` is the specification. `AttachProofs`, `AttachConverges`
  and `DetachProofs` prove it for any number of redeliveries; `EveryTape`, `AttachExactly`,
  `AttachBounds` and `AttachTidy` say what still holds when probes are refused, and exactly when;
  `UndoProofs` proves that a detach takes back whatever was delivered before it, under any faults;
  `AttachedRow` gives the very rows a returned attach leaves.
* **Create, delete, resize.** `Create.dfy` is the specification; `RecreateProofs`, `FieldProofs`,
  `FateProofs`, `NetProofs`, `CreateProofs`, `CreateConverges`, `RowProofs`, `RenameProofs`,
  `LiveProofs`, `CleanCreate`, `CleanExactly` and `CreateExactly` prove it for every tape.
  `Invariants.dfy` and `Runs.dfy` prove what every run of mixed messages keeps; `ForeignRow` and
  `EmptyHostname` say exactly when a create with an empty hostname does not. `FieldValues` gives the
  columns of a clean create from the message and the store, `Reports` what each failure counts for,
  `RowLaws` the rows a resize and a delete leave; `HeardRuns` and `HeardEnds` say what refusals do.
* **Concurrency.** `Locality` and `Guarantee` are about one request: what it reads and writes, and
  that it leaves other messages alone. `Weaving` is about any order of many messages' requests on
  one store. `Interference`, `ProtocolTwins` and `NonInterference` follow one message, request by
  request, with and without others. `Joint` puts the messages on one store, each producing its own
  requests, under any schedule. `SharedRows` says exactly when messages do interfere.
* **Message level.** `Service.dfy` is processing with retries, then ack or nack, and `HandlingLaws.dfy`
  which failures are tried again; `Drain.dfy` is the whole service as an interleaving of task steps,
  the shutdown signal and the closing order.
* **The source's own form.** `Handler.dfy` is the class `InstanceHandler` with the source's loops
  and early exits over one store; `Service.dfy` holds the class `MessageHandlerService`. Every
  method is proved equal to the specification function the lemmas are about.

The main results are `InsertAtMostOnce`, `AttachOnce`, `OnceExactly`, `DetachUndoesAttach`,
`CreateRetried`, `CleanFinishesAgree`, `CleanColumns`, `FieldsExact`, `RunSteady`, `EachAsAlone`,
`AckedExactly`, `HeardExactly` and `GracefulDrain`.

## What the proofs found

* An address is attached at most once only as long as the probe for it is never refused for good:
  the refusal is swallowed and reads as "not there" (`SwallowedProbeInsertsTwice`), although the
  repository's README promises that a selector protects against duplicates. Over n deliveries it
  holds under every tape exactly for n = 0, or n = 1 with a single attempt (`OnceExactly`): even
  with single attempts a second delivery may insert a row again that the first one landed unseen
  (`SecondDelivery`).
* The endpoint of an attach needs no such assumption, because a refusal of its second probe is
  raised (`EndpointAtMostOnce`). Over deliveries, new endpoints are at most one under every tape
  exactly when the port has a mac, or while there are bare endpoints left to reuse (`CardsExactly`).
* Endpoint names stay unique under every tape; the `be` and `fe` kinds do exactly when there is a
  single attempt or the address would be given no such kind (`KindsExactly`).
* A create with an empty hostname can end up on another server's row (`ForeignRowHandedBack`): its
  removal does not look for the name, its re-select does. It re-creates its own row under every
  tape exactly with a single attempt or where the removal leaves no such row (`RowRecreatedExactly`).
  Endpoint names stay distinct under every tape exactly when, besides, the oldest such row has no
  endpoint of a planned name (`CreateNamesExactly`), and the `be` and `fe` kinds stay unique
  exactly when it holds no kind the plan gives (`CreateKindsExactly`). `SoleExactly` says exactly
  when the re-created row is the only one of its names.
* For cap-tenant and cluster-node messages the tag whitelist is off, and a tag may rename the
  message's own row. The row then stays in `setup` and the message ends normally with nothing
  recorded (`ClusterNodeLosesRow`). `BatchDecides` is the exact condition on the merged batch,
  `RowKeptExactly` the one on the tags under every tape.
* An acked create need not have created anything (`AckedWithoutServer`): it did exactly when its
  last attempt got past re-creating the row (`AckedCreateExactly`).
* Two clean finishes of one create can differ: a placeholder whose mac is on an earlier card may be
  taken for that card after a lost insert. `FinishesExactly` says exactly when all clean finishes agree.
* A write that is recorded as failed may be on the row all the same (`BothHappens`). It is not,
  under every tape, exactly with a single attempt, or where the store refuses its value, or where
  the row already had that value (`RecordedExactly`).
* Detach removes every endpoint without addresses, not only the one it emptied, so it undoes
  attaches exactly on servers whose endpoints all held addresses, however many deliveries there
  were and whatever faults they met (`UndoneExactly`).
* Different hostnames and uuids alone do not keep messages apart: a row that carries the hostname
  of one and the uuid of the other belongs to both (`SharedRowCollides`), and without such a row
  they never notice each other (`ApartExactly`).

## Model

| member | source | states |
|---|---|---|
| `Handler.InstanceHandler.CmdbCall` | src/g2c_instance_handler/handler.py:985-1061 | the bounded loop with its early exits ends in exactly the store, log and answer the retry specification gives, for every tape; CallExactly and the Guarded laws say what those are in attempts and fates |
| `Handler.InstanceHandler.SendAttempt` | src/g2c_instance_handler/handler.py:1021-1061 | one attempt's request: done with the classified answer, or slept and to be tried again, never both |
| `Handler.InstanceHandler.RecoverInsert` | src/g2c_instance_handler/handler.py:970-983 | the re-select of each kind, including the two probes of the attach endpoint selector |
| `Handler.InstanceHandler.FindAttachedIp` | src/g2c_instance_handler/handler.py:1154-1173 | the attach probe is itself a retried call; a refusal is neither raised nor recorded, only a transport failure gets out |
| `RetryProofs.InsertAtMostOnce` | src/g2c_instance_handler/handler.py:985-1061 | for every budget and mix of lost replies, failed sends and failed re-selects an insert lands at most once, a returned row is in the store, an abort means it never landed, and a swallowed failure was recorded; for the attached address as long as no probe is refused |
| `RetryProofs.EndpointAtMostOnce` | src/g2c_instance_handler/handler.py:1200-1227 | under every tape, refused probes included, an attach inserts its endpoint at most once |
| `RetryProofs.RetryAfterLanding` | src/g2c_instance_handler/handler.py:1001-1019 | once a row is there, every further attempt only finds it: the store and the keys handed out stay; for the attached address as long as no probe is refused |
| `RetryProofs.ReselectReads` | src/g2c_instance_handler/handler.py:1175-1227 | a re-select changes nothing and reports what the store holds, for the attached address unless its probe is refused |
| `RetryProofs.PlainCall` | src/g2c_instance_handler/handler.py:985-1061 | a call without selector acted on the store once or not at all, and a normal reply of a raising call means it did |
| `RetryProofs.HonestProbe` | src/g2c_instance_handler/handler.py:1154-1173 | a probe that was never refused answers whether the address is attached |
| `RetryBudget.InsertIsCleared` | src/g2c_instance_handler/handler.py:1001-1022 | after the first attempt an insert is sent only right after a re-select that found nothing, or after an attach probe whose refusal was swallowed |
| `RetryBudget.CallBudget` | src/g2c_instance_handler/handler.py:985-1061 | with n attempts: at most n requests, 2n-1 with a bare selector, n squared for the attach address, n squared plus n-1 for the attach endpoint, with matching sleep bounds |
| `RetryBudget.NapsTotal` | src/g2c_instance_handler/handler.py:964-968 | the sleeps of one loop add up to at most base n(n-1)/2 plus jitter (n-1) |
| `CallLaws.CallExactly` | src/g2c_instance_handler/handler.py:985-1061 | under every tape a call without selector is decided by the first fate that is not mute, after exactly that many requests, and raises the transport failure only when as many fates as its attempts are mute; retry i is preceded by a sleep of i seconds to i and a half |
| `CallLaws.GuardedGivesUp` | src/g2c_instance_handler/handler.py:1000-1061 | a guarded insert raises only after as many rounds as it has attempts, a failed re-select counting as a round, for each kind of re-select and every mix of failed re-selects, lost requests and lost replies |
| `CallLaws.GuardedFinds` | src/g2c_instance_handler/handler.py:1000-1019 | with an attempt left after such rounds, a re-select that finds a row ends the call with that row, nothing sent after it |
| `CallLaws.GuardedSends` | src/g2c_instance_handler/handler.py:1000-1049 | and one that finds nothing is followed by the insert, whose answer or refusal ends the call |
| `BondNames.NextBondName` | src/g2c_instance_handler/handler_utils.py:48-65 | the scan and count loop returns the specified name |
| `BondNames.NextBondIsLeastFree` | src/g2c_instance_handler/handler_utils.py:48-65 | the name is not among the inputs, its number is the least free one and at most the number of names |
| `BondNames.NumberedExactly` | src/g2c_instance_handler/handler_utils.py:56-62 | a name holds a number exactly when it is bond and digits, with or without a line feed at its end |
| `Planning.ReadNetwork` | src/g2c_instance_handler/handler_utils.py:100-109 | one network read into a card, last mac and order winning |
| `Planning.GroupNetworks` | src/g2c_instance_handler/handler_utils.py:96-134 | grouping by order with clash, merge and placeholder |
| `Planning.NumberUnordered` | src/g2c_instance_handler/handler_utils.py:136-148 | cards without an order numbered on from the highest |
| `Planning.BuildHostNetworks` | src/g2c_instance_handler/handler_utils.py:89-161 | the whole planning loop nest returns the specified cards |
| `PlanningProofs.CardsPartitionNetworks` | src/g2c_instance_handler/handler_utils.py:100-148 | every network of the message is in exactly one address-sourced card, which has their addresses in order, the name of the first, the first mac any of them knows, and the order they name; its mac clashes with none of theirs |
| `PlanningProofs.AddressConservation` | src/g2c_instance_handler/handler_utils.py:100-148 | the addresses on address-sourced cards are, as a multiset, the fixed entries of the message |
| `PlanningProofs.HostNetworksPlan` | src/g2c_instance_handler/handler_utils.py:89-161 | every port address is on some card, a port-sourced card shares no address with another, orders rise strictly and every placeholder has a mac |
| `CardSources.NetworkRead` | src/g2c_instance_handler/handler_utils.py:100-109 | a network's card has its name, its fixed addresses in order, and the mac and order of the last fixed entry that gives one |
| `CardSources.OrdersGoOn` | src/g2c_instance_handler/handler_utils.py:111-148 | ordered cards come first in rising order, then those set aside because another known mac holds their order, in the message's order, then the unordered in the message's order, numbered on from the highest order or from bond0 |
| `CardSources.PortCards` | src/g2c_instance_handler/handler_utils.py:150-160 | after them one card for each port that then still has an address on no card, in order, with that port's mac, exactly those addresses in order, and the next order; every other port had none left |
| `PlanningProofs.EndpointNamesDistinct` | src/g2c_instance_handler/handler.py:869-891 | the endpoint names given to all cards of one message, placeholders included, are pairwise distinct |
| `PlanningProofs.NamesAvoid` | src/g2c_instance_handler/handler.py:869-891 | a numbered card keeps its bond name and a placeholder takes none that a later card needs |
| `CardSources.NamesAre` | src/g2c_instance_handler/handler.py:869-891 | a numbered card is named bond and its order less one, a placeholder the lowest bond name free of the given names and of earlier placeholders' |
| `CardSources.TakenAre` | src/g2c_instance_handler/handler.py:869-876 | the names kept from placeholders are exactly those of the numbered cards |
| `Attachments.IpInNetPrefixes` | src/g2c_instance_handler/handler_utils.py:78-86 | the scan returns the first prefix that contains the address |
| `Tags.Tags2CmdbField` | src/g2c_instance_handler/handler.py:639-657 | the tag loop builds the specified mutation |
| `Tags.BuildCreateWrites` | src/g2c_instance_handler/handler.py:739-753 | the step table and then the leftovers, in order |
| `Tags.MergeWrites` | src/g2c_instance_handler/handler.py:755-773 | the shallow last-wins batch |
| `TagsProofs.TagsPartition` | src/g2c_instance_handler/handler.py:660-663 | a tag is a leftover exactly when no step consumes it, and no two steps consume the same tag |
| `TagsProofs.CreateWritesOneKey` | src/g2c_instance_handler/handler.py:665-753 | every field write names exactly one column |
| `TagsProofs.WritesKeepOut` | src/g2c_instance_handler/handler.py:581-613 | no write targets state; under the whitelist no leftover shares a column with a step and none renames the row |
| `TagsProofs.BatchNeverEmpty` | src/g2c_instance_handler/handler.py:820-830 | the batch always has at least the datacenter column, so the empty-batch error cannot happen |
| `TagsProofs.BatchIsReplay` | src/g2c_instance_handler/handler.py:755-773 | an accepted batch leaves the row that writing field by field would leave, even when an overwritten value is invalid |
| `TagsProofs.ReplayIsLastAccepted` | src/g2c_instance_handler/handler.py:843-852 | a replay leaves each column at its last accepted write, or as it was |
| `TagLaws.KeptExactly` | src/g2c_instance_handler/handler.py:581-613 | the tags a create works on are, in order, those under cmdb. that are not the state's nor the cap tenant's, and name a whitelisted field unless the message is trusted |
| `TagLaws.TagSays` | src/g2c_instance_handler/handler.py:639-657 | a tag column.field looks that field up in its column; a plain one is text, or a look-up by its class's default key where the column is a reference |
| `TagLaws.StepsAsAsked` | src/g2c_instance_handler/handler.py:665-737 | the steps write exactly: the datacenter, the cloud project's key if known, the tenant, the flavor with its region, the payment if given, and owner, responsible and cost center from the cap tenant, else the last tag of the name, else the cloud project, else the default |
| `TagLaws.LeftoversAsTagged` | src/g2c_instance_handler/handler.py:739-779 | leftover tags write exactly the columns they name and no step consumes, the last tag of a column deciding |
| `Handler.InstanceHandler.GetNetPrefixByIp` | src/g2c_instance_handler/handler.py:1133-1152 | the lookup of a prefix, with a refused select read as none |
| `Handler.InstanceHandler.DeleteServerRows` | src/g2c_instance_handler/handler.py:1087-1131 | the nested loops over found servers and their rails, stopping at the first failure |
| `Handler.InstanceHandler.RecreateServerRow` | src/g2c_instance_handler/handler.py:783-816 | removal and guarded insert of the row |
| `Handler.InstanceHandler.WriteCreateFields` | src/g2c_instance_handler/handler.py:818-852 | one batch, and a replay write by write when it is refused |
| `Handler.InstanceHandler.PersistAddresses` | src/g2c_instance_handler/handler.py:918-953 | the inner loop over a card's addresses and the kinds it uses up |
| `Handler.InstanceHandler.PersistNetEndpoints` | src/g2c_instance_handler/handler.py:854-953 | the loop over cards with its names, selectors and skipped failures |
| `Handler.InstanceHandler.LookUpCapTenant` | src/g2c_instance_handler/handler.py:584-609 | the cap tenant a tag names, a miss being recorded |
| `Handler.InstanceHandler.BuildCreateContext` | src/g2c_instance_handler/handler.py:536-629 | the reading of a create message and its three error exits |
| `Handler.InstanceHandler.CreateInstances` | src/g2c_instance_handler/handler.py:155-201 | the whole create, with the abort that is swallowed |
| `Handler.InstanceHandler.DeleteInstances` | src/g2c_instance_handler/handler.py:203-215 | delete by uuid |
| `RowLaws.DeleteTakes` | src/g2c_instance_handler/handler.py:203-215 | under every tape a returned delete has taken away the rows of the uuid and their rails and nothing else; an empty uuid names none |
| `Handler.InstanceHandler.ResizeInstances` | src/g2c_instance_handler/handler.py:217-252 | payment, then flavor, each by uuid |
| `RowLaws.ResizeSets` | src/g2c_instance_handler/handler.py:217-252 | under every tape a returned resize has set payment and flavor, each where given, on every row of the uuid and nowhere else; one that raised has set a part |
| `Handler.InstanceHandler.FindAttachPrefix` | src/g2c_instance_handler/handler.py:329-355 | datacenter and prefix of an attached address, any miss degrading to none |
| `Handler.InstanceHandler.AttachEndpointCard` | src/g2c_instance_handler/handler.py:357-424 | reuse by mac, else of an orphan, else insertion under the lowest free name |
| `Handler.InstanceHandler.AttachToInstances` | src/g2c_instance_handler/handler.py:254-446 | the whole attach with its early exits |
| `Handler.InstanceHandler.DetachFromInstances` | src/g2c_instance_handler/handler.py:449-498 | the address first, then the sweep |
| `Handler.InstanceHandler.ProcessMessage` | src/g2c_instance_handler/handler.py:117-151 | routing by action type |
| `HeardEnds.HeardExactly` | src/g2c_instance_handler/handler.py:117-151 | when every request is heard, a message that can be read returns exactly when no request that matters to it was refused, and otherwise aborts; which those are is told for each kind of message |
| `RowLaws.NothingSent` | src/g2c_instance_handler/handler.py:117-151 | a message that lacks what it is about, or of no known kind, returns with nothing sent; one that cannot be read fails for good with nothing sent |
| `AttachProofs.AttachDelivers` | src/g2c_instance_handler/handler.py:254-446 | when no probe is refused, one delivery does nothing, puts the card in place, or puts card and address in place; an attached address is left alone |
| `AttachedRow.AttachedRows` | src/g2c_instance_handler/handler.py:329-446 | under every tape a returned attach of a new address leaves its endpoint reused by mac, else the first bare one, with mac and notes filled in only where they held nothing, or new under the lowest free name with both; and rows of the address on it with the store's prefix, or none only where a request was refused, and the kind that prefix and the server leave |
| `EveryTape.AttachDealt` | src/g2c_instance_handler/handler.py:254-446 | under every tape one delivery puts at most one card in place and then only rows of one address request, at most as many as there are attempts |
| `AttachConverges.AttachOnce` | src/g2c_instance_handler/handler.py:283-446 | when no probe is refused, any number of deliveries adds at most one endpoint and at most one row for the address; once one returned there is exactly one |
| `AttachConverges.AttachedStays` | src/g2c_instance_handler/handler.py:317-327 | once attached, further deliveries change nothing |
| `AttachConverges.SwallowedProbeInsertsTwice` | src/g2c_instance_handler/handler.py:1154-1173 | whenever the address insert lands with its reply lost and the next probe is refused, the address ends up in two rows |
| `AttachExactly.TwiceInOne` | src/g2c_instance_handler/handler.py:254-446 | one attach with two attempts: a lost reply, a refused probe, and the address has two more rows |
| `AttachExactly.SecondDelivery` | src/g2c_instance_handler/handler.py:317-446 | with single attempts, a second delivery inserts again what the first landed unseen |
| `AttachExactly.OnceExactly` | src/g2c_instance_handler/handler.py:254-446 | for a server found without the address: at most one row after n deliveries under every tape exactly for no delivery, or one delivery with one attempt |
| `AttachBounds.OneCardPerMac` | src/g2c_instance_handler/handler.py:357-424 | under every tape any number of deliveries of an attach whose port has a mac adds at most one endpoint |
| `AttachBounds.CardsExactly` | src/g2c_instance_handler/handler.py:357-424 | n deliveries add at most one endpoint under every tape exactly when the port has a mac or n is at most the bare endpoints plus one |
| `AttachTidy.AttachSteady` | src/g2c_instance_handler/handler.py:390-446 | an attach keeps endpoint names distinct under every tape, and at most one be and one fe address per server when no probe is refused or there is one attempt |
| `AttachTidy.TwiceTheKind` | src/g2c_instance_handler/handler.py:426-446 | with two attempts an attach that gives a scarce kind can give it to two rows of one server |
| `AttachTidy.KindsExactly` | src/g2c_instance_handler/handler.py:426-446 | an attach keeps scarce kinds unique under every tape exactly with one attempt or where it gives no scarce kind |
| `DetachProofs.DetachedMeans` | src/g2c_instance_handler/handler.py:466-497 | exactly the rows of that address on the host go, and exactly the endpoints of the host left without an address |
| `DetachProofs.DetachDelivers` | src/g2c_instance_handler/handler.py:449-498 | one delivery stops before, between or after the two deletes, and a returned one did both |
| `DetachProofs.DetachConverges` | src/g2c_instance_handler/handler.py:466-497 | any number of deliveries, cut off anywhere, keeps the same goal, and once one returned the store is there |
| `UndoProofs.RunUndoable` | src/g2c_instance_handler/handler.py:357-497 | under every tape any deliveries of an attach and of its detach, in any order, leave servers, rails and every other address as they were; where all endpoints of the host held addresses, the old endpoints keep all but notes and every new one is on the host and holds no old address |
| `UndoProofs.UndoneExactly` | src/g2c_instance_handler/handler.py:486-497 | under every tape, after any deliveries of the two in any order, a returned detach has the addresses, servers and rails back, and the endpoints back up to filled-in notes exactly when all of the host held addresses before |
| `UndoProofs.DetachUndoesAttach` | src/g2c_instance_handler/handler.py:357-497 | where all endpoints hold addresses, a returned detach after any number of attach deliveries, under every tape and with probes refused or not, restores servers, rails and addresses, and the endpoints up to filled-in notes |
| `RecreateProofs.ServerRemoved` | src/g2c_instance_handler/handler.py:1087-1131 | a removal cut off anywhere leaves the same goal; a finished one leaves no row of this hostname or uuid and none of their rails |
| `RecreateProofs.RowRecreated` | src/g2c_instance_handler/handler.py:783-816 | old rows go at most once, the new row comes at most once, and a returned key is the new row's; with an empty hostname too, when there is one attempt or the removal leaves no row with one |
| `EmptyHostname.RowRecreatedExactly` | src/g2c_instance_handler/handler.py:783-816 | this holds under every tape exactly with one attempt or when the removal leaves no row of this hostname |
| `RecreateProofs.RecreateResumes` | src/g2c_instance_handler/handler.py:783-816 | however far it got, running again ends in the same rows and rails |
| `RecreateProofs.SoleExactly` | src/g2c_instance_handler/handler.py:1087-1131 | the re-created row is the only one of its hostname or uuid exactly when no row carries one of them merely because it is empty |
| `RecreateProofs.ForeignRowHandedBack` | src/g2c_instance_handler/handler.py:805-816 | where a row of this hostname was left behind, an insert that never arrives hands that row back as the new one |
| `EmptyHostname.EmptyHostnameClash` | src/g2c_instance_handler/handler.py:783-891 | where the oldest row left with an empty hostname has an endpoint of any planned name, an insert that never arrives gives that server two endpoints of one name, on whichever card it is |
| `EmptyHostname.EmptyHostnameKinds` | src/g2c_instance_handler/handler.py:910-953 | and where that row holds a be or fe address of a kind the plan gives, it gets a second one |
| `EmptyHostname.CreateNamesExactly` | src/g2c_instance_handler/handler.py:783-891 | a create keeps endpoint names distinct under every tape exactly when its message cannot be read, or there is one attempt, or the removal leaves no row of its hostname, or the oldest such row has no endpoint of a planned name |
| `EmptyHostname.CreateKindsExactly` | src/g2c_instance_handler/handler.py:910-953 | the same for the be and fe kinds: exactly then, or when the oldest such row has none of the kinds the plan gives |
| `FieldProofs.FieldsStage` | src/g2c_instance_handler/handler.py:818-852 | under any faults only this row changes, and without a state-error record every column but tenant and flavor has its last write |
| `FieldProofs.ReplayExact` | src/g2c_instance_handler/handler.py:838-852 | when only values are refused, a finished replay leaves each column at its last valid write and records exactly the refused writes, in order, with their flags |
| `FateProofs.ReplayEnds` | src/g2c_instance_handler/handler.py:838-852 | under every tape a finished replay has each write on the row or recorded, records in order, and a refused value is always recorded and never on the row; with one attempt no write is both |
| `FateProofs.FieldsEnd` | src/g2c_instance_handler/handler.py:818-852 | under every tape either the batch answered and nothing is recorded, or each write is accounted for over a batch that may have landed unanswered; with one attempt a replayed batch never landed and no write is both |
| `FateProofs.BothHappens` | src/g2c_instance_handler/handler.py:1021-1061 | a write whose reply is lost and whose repeat is refused is on the row and recorded |
| `FateProofs.RecordedExactly` | src/g2c_instance_handler/handler.py:1021-1061 | a recorded write is off the row under every tape exactly with one attempt, or when the store refuses it, or when it would change nothing |
| `FieldProofs.FieldsExact` | src/g2c_instance_handler/handler.py:818-852 | when only values are refused, batch refines replay on the store: the same row either way, nothing recorded when the batch is taken, the refused writes otherwise |
| `Reports.WritesWeighed` | src/g2c_instance_handler/handler.py:727-753 | a failed field write puts the row in error unless it is the tenant's or the flavor's, and is told in the details unless it is the flavor's |
| `Reports.EntriesWeighed` | src/g2c_instance_handler/handler_models.py:63-87 | the same for every entry a create records, look-ups, cards, addresses and the state included, under every tape |
| `Reports.DetailsAre` | src/g2c_instance_handler/handler_models.py:83-88 | the details are the listed messages in the order they were recorded, one to a line |
| `NetProofs.CardsStage` | src/g2c_instance_handler/handler.py:854-953 | only cards of this server and addresses on them are added, names and kinds stay unique, and without a state-error record every address of every card is placed |
| `HeardRuns.CardsAsked` | src/g2c_instance_handler/handler.py:864-953 | when every request is heard, each planned endpoint is asked for once, in order, with its name, mac and notes, whichever of them were refused |
| `HeardRuns.AddrsAsked` | src/g2c_instance_handler/handler.py:918-953 | and so is each covered address of a placed card, with its kind and prefix |
| `HeardRuns.FillReturns` | src/g2c_instance_handler/handler.py:181-200 | once its row is there a create that is heard returns, whatever was refused |
| `CreateProofs.ContextBuilt` | src/g2c_instance_handler/handler.py:536-629 | reading the message changes nothing, and under any faults gives the one context of this store or raises |
| `CreateProofs.ServerFilled` | src/g2c_instance_handler/handler.py:181-200 | a returned run has the whole plan on the row in its ready state, or the row is marked as in error, or even that write was refused and recorded |
| `CreateProofs.CreateOnce` | src/g2c_instance_handler/handler.py:155-201 | one attempt either stops before the row is back, or leaves it as the only row of its names with no foreign card touched; either way the message can be run again |
| `CreateConverges.CreateRetried` | src/g2c_instance_handler/handler.py:783-816 | after any number of attempts cut off at any point, the next one past the row's re-creation leaves exactly one row of the hostname or uuid, all other rows and rails as before, and a finished plan or the error mark |
| `CreateConverges.EveryAddressPlaced` | src/g2c_instance_handler/handler_utils.py:100-161 | a complete plan has a row for every fixed address and every port address of the message |
| `RenameProofs.BatchDecides` | src/g2c_instance_handler/handler.py:165-200 | once the batch is taken the row carries the message's names at the end exactly when the merged hostname and uuid, where present, are its own; then it gets its final state, otherwise nothing is written to it again |
| `RenameProofs.CreateDecides` | src/g2c_instance_handler/handler.py:155-200 | the same for the whole create: a batch that gives the row other names leaves it in setup |
| `RenameProofs.SafeExactly` | src/g2c_instance_handler/handler.py:739-779 | filling in a row keeps its names under every tape exactly when every field write the store takes leaves them alone or writes them back |
| `CreateExactly.RowKeptExactly` | src/g2c_instance_handler/handler.py:155-200 | the same for the whole create: whenever it gets past its row, under every tape |
| `RenameProofs.RenamedSilently` | src/g2c_instance_handler/handler.py:155-200 | with no faults and no cards, a create whose batch renames the row returns, records nothing and leaves the row in setup |
| `RenameProofs.ClusterNodeLosesRow` | src/g2c_instance_handler/handler.py:581-613 | a cluster-node message with one hostname tag does so on any store that refuses nothing |
| `CreateConverges.WhitelistedSafe` | src/g2c_instance_handler/handler.py:611-613 | a message that is neither a cap tenant's nor a cluster node's is always safe |
| `LiveProofs.CardsPlanned` | src/g2c_instance_handler/handler.py:854-953 | a run that reports nothing adds exactly the planned endpoints and addresses, in order, whatever faults it met, as long as no re-select can take one card or address for another |
| `CleanCreate.CreateClean` | src/g2c_instance_handler/handler.py:155-201 | a clean attempt leaves exactly the planned columns, endpoints and addresses |
| `CleanCreate.CleanFinishesAgree` | src/g2c_instance_handler/handler.py:783-816 | after any retries a clean finish leaves the rows of a single run, up to the server's key, with one attempt per request or distinct cards |
| `FieldValues.CleanColumns` | src/g2c_instance_handler/handler.py:536-779 | after any retries the row of a clean create has, column by column, what the message, its cap tenant, its cloud project and its tags ask for, and the state its tag names or ready; for every message, whatever its cards |
| `FieldValues.DcNameIs` | src/g2c_instance_handler/handler_utils.py:29-31 | the datacenter is the hostname up to its first dash in capitals |
| `CleanExactly.MacTwice` | src/g2c_instance_handler/handler.py:869-907 | a placeholder whose mac is on an earlier card: a lost insert, and the clean finish has one endpoint fewer |
| `CleanExactly.AddrTwiceOn` | src/g2c_instance_handler/handler.py:918-953 | a card that names an address twice: a lost insert, and the clean finish has fewer addresses on it |
| `CleanExactly.CleanExactly` | src/g2c_instance_handler/handler.py:854-953 | every clean finish of the cards is the plan under every tape exactly with one attempt, or distinct cards, or an address no prefix covers, which no clean finish survives |
| `CreateExactly.CleanNeeds` | src/g2c_instance_handler/handler.py:155-200 | a create finishes clean only if the store has its cap tenant, takes its batch and state, and covers all its addresses |
| `CreateExactly.FinishesExactly` | src/g2c_instance_handler/handler.py:155-200 | all clean finishes of a create leave the same rows under every tape exactly with one attempt, or distinct cards, or when the store lacks or refuses something it needs |
| `Runs.CreateSteady` | src/g2c_instance_handler/handler.py:783-953 | a create, whatever its tags and its hostname, keeps endpoint names and scarce kinds unique unless it is exposed to another server's row as CreateNamesExactly and CreateKindsExactly say |
| `Runs.RunKeeps` | src/g2c_instance_handler/handler.py:117-151 | every run of messages of every kind, repeated and cut off anywhere, keeps keys and references sound under every tape, endpoint names distinct unless some create in it meets an exposed store, and kinds unique likewise, when no attach probe is refused or there is one attempt |
| `Runs.RunSteady` | src/g2c_instance_handler/handler.py:117-151 | with one attempt per request, or when every create names its hostname, every such run keeps endpoint names distinct under every tape, and kinds unique when no attach probe is refused or there is one attempt |
| `NonInterference.RunsAsAlone` | src/g2c_instance_handler/handler.py:117-151 | with requests of other messages in between, in any order those could send them, a message sends the same requests, ends the same way and leaves the same rows of its own as alone, and each of its requests is keyed by its own rows on the store it meets |
| `Joint.EachAsAlone` | src/g2c_instance_handler/bootstrap_handlers.py:67-109 | any number of messages naming disjoint servers, each producing its own requests on one store under any schedule and any tapes: each is handled, retried, acked or nacked as alone, and its rows end as alone |
| `Joint.SentByTurns` | src/g2c_instance_handler/handler.py:117-151 | a message sends one request at each of its turns until it is done, so every schedule with enough turns finishes it |
| `Weaving.Meets` | src/g2c_instance_handler/handler.py:117-151 | whatever order the requests of such messages land in, each message finds its rows as if alone, no key is given twice and no row comes to carry names of two messages |
| `Locality.ReadsLocal` | src/g2c_instance_handler/handler.py:893-953 | what a message's requests read depends only on its own rows |
| `Locality.CommitLocal` | src/g2c_instance_handler/handler.py:893-953 | what they write acts on its own rows as if there were no others |
| `Guarantee.CommitForeign` | src/g2c_instance_handler/handler.py:474-491 | and leaves the rows of every message apart from it as they were |
| `Guarantee.ApartKept` | src/g2c_instance_handler/handler.py:474-491 | nor does it make a row carry the names of two messages that had none in common |
| `Guarantee.SharedRowInterferes` | src/g2c_instance_handler/handler.py:1102-1106 | a row carrying the hostname of one message and the uuid of another can be deleted by either |
| `SharedRows.ApartExactly` | src/g2c_instance_handler/handler.py:1102-1130 | of two messages with different names, one may notice what the other asks for exactly when some row carries a name of each |
| `SharedRows.SharedRowCollides` | src/g2c_instance_handler/handler.py:155-215 | a create of that row's hostname and a delete of its uuid each take the row from the other |
| `Service.MessageHandlerService.HandleMessage` | src/g2c_instance_handler/bootstrap_handlers.py:67-100 | the retry loop ends in the specified store and outcome, counts the message once and its failure at most once, and then confirms |
| `Service.MessageHandlerService.ConfirmMessage` | src/g2c_instance_handler/bootstrap_handlers.py:39-54 | confirmed as specified, with one fixed sleep between tries |
| `Service.MessageHandlerService.DoneCallback` | src/g2c_instance_handler/bootstrap_handlers.py:57-65 | of a finished task, in a service that keeps its invariant: it was tracked, and the tracked tasks are again exactly those delivered whose callback has not run |
| `Service.MessageHandlerService.Track` | src/g2c_instance_handler/bootstrap_handlers.py:103-109 | of a new delivery, in a service that keeps its invariant: the tracked tasks are again exactly those delivered whose callback has not run, this one among them |
| `Service.AckedExactly` | src/g2c_instance_handler/bootstrap_handlers.py:76-100 | acked exactly when some attempt returned; otherwise an attempt failed for good or all of them failed |
| `HandlingLaws.HandledExactly` | src/g2c_instance_handler/bootstrap_handlers.py:76-91 | attempt k+1 is made, on the world attempt k left, exactly while attempts are left and k failed with a transport, data or other error; sleeps grow by five seconds |
| `HandlingLaws.NackedEarly` | src/g2c_instance_handler/bootstrap_handlers.py:81-95 | nacked before its attempts are used up only by an abort, a broken message or a missing key |
| `HandlingLaws.TransportIsRetried` | src/g2c_instance_handler/bootstrap_handlers.py:79-91 | a transport failure of any but the last attempt is followed by another one on what it left |
| `Service.SleepBudget` | src/g2c_instance_handler/bootstrap_handlers.py:76-91 | the sleeps of m attempts with first delay d add up to at most (m-1)d + 5(m-1)(m-2)/2, and to exactly that when all were made |
| `Service.ConfirmedExactly` | src/g2c_instance_handler/bootstrap_handlers.py:39-54 | confirmed exactly when one of the allowed tries gets through, after which nothing is sent |
| `Service.HandledDecides` | src/g2c_instance_handler/bootstrap_handlers.py:76-100 | a message handled in one go ends as its task does in every interleaving |
| `Service.AckedAttach` | src/g2c_instance_handler/bootstrap_handlers.py:76-100 | an acked attach on a server that was there left exactly one row for the address |
| `Service.AckedCreate` | src/g2c_instance_handler/bootstrap_handlers.py:76-100 | an acked create that got past the row left one row with the whole plan or the error mark |
| `Service.AckedCreateExactly` | src/g2c_instance_handler/handler.py:171-179 | an acked create left its re-created row exactly when its last attempt got past the re-creation; otherwise that was refused for good and no server came of it |
| `Service.AckedWithoutServer` | src/g2c_instance_handler/handler.py:175-179 | a refusal while the row is re-created is acked with the store unchanged |
| `Drain.TrackedExactly` | src/g2c_instance_handler/bootstrap_handlers.py:57-65 | in every interleaving the tracked tasks are exactly those started whose done callback has not run |
| `Drain.OutcomeExactly` | src/g2c_instance_handler/bootstrap_handlers.py:76-100 | a task acks exactly when one of its attempts returned, and nacks exactly when one failed for good or all failed |
| `Drain.Conservation` | src/g2c_instance_handler/bootstrap_handlers.py:74-95 | received = in flight + succeeded + counted failures, at every moment |
| `Drain.GracefulDrain` | src/g2c_instance_handler/main.py:77-88 | when the connection closes nothing is tracked and every delivered message was confirmed or used up its confirm tries |
| `Drain.DrainProgress` | src/g2c_instance_handler/main.py:77-88 | after the signal the next phase can be entered or a tracked task can take a step |
| `Drain.TaskBudget` | src/g2c_instance_handler/bootstrap_handlers.py:67-100 | every task takes a bounded number of steps in every interleaving, so the drain ends |

## Left out

- The AMQP, HTTP and GraphQL clients: only their outcomes appear, as the tape of fates and as oracle steps of the drain.
- Logging, Sentry, Prometheus rendering, the metrics server: no state the protocols depend on, except the two message counters.
- Reading resources out of message JSON, and the contract and key errors that can raise: a message arrives parsed; a body that is no JSON is one constructor.
- Environment parsing in config.py: its lower bounds appear as preconditions (attempts and retries at least one).
- The text of error messages: an entry carries the field name in place of the exception text, and its two flags; `raw_info`, `type` and `importer` of cards are not written.
- CIDR containment: a prefix carries the set of addresses its network covers.
- The CMDB's own semantics are assumed: updates are atomic, deletes are idempotent, `select_one` returns the oldest matching row, deleting a server does not cascade to its cards, and no constraint makes an insert fail by itself.
- The store never refuses an insert by value; a refusal of any request for good is a fate on the tape, and an update may also be refused for a value.
- Jitter is any value within its bounds.
- `FieldErrors` and `HostNetwork` as shared mutable objects: errors are a field of the world and cards are values, so aliasing between a card and the list that holds it is not captured.
- Unicode: bond names read ASCII digits only and the datacenter name upper-cases ASCII letters only.
- A tag named after a column the model does not have, such as `id`, is written as an ordinary column.
- Racing duplicate messages for the same server: the source disclaims them; messages for one server run one after the other.
- Broker reconnects and task cancellation during the drain: they belong to the library.
- AttachOnce: assumes that no probe for the attached address is refused for good, because the source swallows that refusal; without it the property is false, and OnceExactly says exactly when it holds.
- RunSteady: assumes a single attempt or a hostname in every create (CreateNamesExactly and CreateKindsExactly are the exact conditions for one create, RunKeeps carries them over a run), and for kinds honest attach probes or a single attempt (KindsExactly).
- CleanFinishesAgree: assumes one attempt per request or distinct cards; FinishesExactly shows that this is needed.
- CreateRetried: assumes that the tags the store takes leave the row its names; RowKeptExactly shows that this is needed.
- CleanColumns: assumes that the tags the store takes leave the row its names (RowKeptExactly says exactly when); a create that reports failures is covered by FieldsEnd and MarkedError in CreateRetried.
- EachAsAlone: a message stands for one handling with its attempts; a redelivery by the broker after a nack is not scheduled, and the confirm calls, which never touch the store, are not interleaved.
