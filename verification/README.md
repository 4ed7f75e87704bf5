# A verified model of the actor framework and of federated learning on it

The repository has two layers. `actor-framework/` provides actors with mailboxes and supervision, a cluster
membership protocol with a consistent-hash ring, and state-based CRDTs. `federated-learning/` trains a linear model
on it: a coordinator, an aggregator, a monitor and N clients exchange messages round by round. This project models
both layers in Dafny and proves what they promise. `dafny verify dfyconfig.toml` checks all of it.

Code that changes state is modelled by classes and loops, each proved against a function or a step relation on
values; the theorems are about those functions and relations, for every input, every run or every interleaving.

| file | component | what is proved about it |
|---|---|---|
| `Vectors`, `LinearModel` | model and training loops | the loss never rises under gradient descent for a safe rate |
| `FedAvg`, `LocalEpochs` | averaging of updates | order of arrival is irrelevant; the average is no worse than average; a round is centralised training, and never raises the loss at a safe rate, exactly with one client or one local epoch |
| `Partition` | splitting and scaling of the data | samples are conserved; scaled data makes one fixed rate safe for all clients |
| `KMeans`, `ClusterManager` | Lloyd's iteration and the groups it yields | cost never rises; a settled run has everyone at a nearest centre; the groups partition the clients |
| `HashRing` | the ring, edited in place | it refines a set of nodes exactly as long as they do not collide; keys move only when they must |
| `Gossip`, `Cluster` | versioned membership and the ring's callbacks | convergence on liveness, and of whole records exactly when the winning messages agree; ring and member list agree after every handler |
| `Actors`, `Rounds`, `RoundSteps` | the four actors and the round protocol | a token-counting invariant, kept by every delivery, and a measure every delivery lowers |
| `Runs`, `FederatedTheorems` | whole runs over bounded mailboxes | whatever is lost, every round is one update per client; with at most 99 clients nothing is lost and nothing stalls; the result is that of centralised training |
| `Termination` | how runs end | every action counts down, a run with nothing left to do has closed DoneCh, and the exact condition for that |
| `PriorityMailbox` | heap, wake-up signal, drain thread | no wake-up and no message is lost; each pop is a foremost message |
| `Supervision`, `ActorLoop` | restart budget, life of one actor | the window counts exactly; delivery survives restarts; a failing actor gives up after its budget |
| `ORSet`, `GCounter` | CRDTs in runs of many replicas | states are determined by the operations reflected; add wins; counts are conserved |

The hypotheses are named where they are used. `RunOk` (rounds): at least one client, some training data, a validation
set. `NoCollisions` (ring): no two of the nodes in use share a point; the hash is otherwise arbitrary. `SafeRate`: lr
times the mean squared length of the extended samples is at most 1. `StrictWeakOrder`: for the ordering of the
priority mailbox alone. Fresh tags for the OR-set, and fewer than 2^64 increments in all, with distinct node ids, for
the counter. Where a promise fails, the condition under which it holds is given exactly: `CentralisedExactly`,
`DescentExactly`, `RoundsCentralisedExactly` and `RoundsDescendExactly` (clients and local epochs),
`RepresentableExactly`, `AddRefines`, `RemoveRefines` and `CollisionsMakeHistoryMatter` (hash collisions),
`StaleVerdictLowersVersion` (interrupted failure detection), `LeadersDecideExactly` (version ties), `ReseedingExactly`
(seeding), `ClosableExactly` (clients and validation set), `ConvergesToTotal`, `ValueFallsExactly` and
`ValueFallsAtMergeExactly` (2^64), and `TombstonedMeansObserved`, `NoClientIsEmptyHanded`, `ScaledColumn`,
`SeedAgreementExactly` and `DrainConsumesAll`.

Floating-point numbers are reals. Handlers and sections under a lock are atomic steps. Time, shuffles, UUIDs and the
interleaving of threads are arbitrary inputs of the steps that use them.

## Model

| member | source | states |
|---|---|---|
| LinearModels.LinearModel.constructor | federated-learning/model/model.go:9-15 | a new model is the zero model |
| LinearModels.LinearModel.Predict | federated-learning/model/model.go:17-23 | the accumulating loop returns the inner product of the parameters with the extended sample, ignoring entries past the last weight |
| LinearModels.LinearModel.MSE | federated-learning/model/model.go:25-32 | the loop returns the mean of the squared residuals over the samples, ignoring entries past the last weight and targets past the last sample; with no samples there is no value |
| LinearModels.LinearModel.Gradient | federated-learning/model/model.go:37-46 | the nested loops leave in the buffers the gradient of the mean squared error, known by what the loss does along every direction |
| LinearModels.LinearModel.Epoch | federated-learning/model/model.go:36-51 | one epoch, in place, moves the parameters by -lr times the gradient of the mean squared error, whatever way that gradient is found |
| LinearModels.LinearModel.Train | federated-learning/model/model.go:34-53 | the weights and bias end as the given number of gradient steps, and the loss returned is that of the final model |
| LinearModels.LossExpansion | federated-learning/model/model.go:25-46 | the squared error along any direction is a quadratic whose linear term is the accumulated gradient |
| LinearModels.GradientIsDerivative | federated-learning/model/model.go:40-46 | the sum of the terms (2/n) * err * x is the gradient: the mean squared error along any direction is linear in it up to a quadratic term |
| LinearModels.GradientIsUnique | federated-learning/model/model.go:40-46 | no other vector is the gradient |
| LinearModels.StepIsGradientDescent | federated-learning/model/model.go:36-51 | one epoch moves by exactly -lr times the gradient |
| LinearModels.EqualErrors | federated-learning/model/model.go:25-32 | a model off by e everywhere has mean squared error e * e |
| LinearModels.CurvatureBound | federated-learning/model/model.go:34-53 | curvature of the loss in any direction is at most its squared length times the energy of the data |
| LinearModels.StepDescends | federated-learning/model/model.go:36-51 | at a safe rate one epoch never raises the mean squared error |
| LinearModels.TrainingDescends | federated-learning/model/model.go:34-53 | at a safe rate the loss after any number of epochs is at most the initial one |
| LinearModels.UnitBoxRateIsSafe | federated-learning/model/model.go:34-53 | for features in [0,1] every rate up to 1/(features + 1) is safe |
| Averaging.FedAvg | federated-learning/model/fedavg.go:11-34 | nil for no updates, not a number when none has samples, otherwise the sample-weighted mean of the models, weights missing in a later update counting as zero |
| Averaging.TakeOut | federated-learning/model/fedavg.go:16-27 | any update can be taken out of the weighted sum, wherever it stands |
| Averaging.ArrivalOrderIrrelevant | federated-learning/model/fedavg.go:16-27 | updates equal as multisets have the same average |
| Averaging.LossAboveTangent | federated-learning/model/fedavg.go:11-34 | the loss lies above each of its tangents |
| Averaging.TangentsAddUp | federated-learning/model/fedavg.go:16-27 | the tangents at the average, weighted by samples, add up to the loss of the average |
| Averaging.AverageNoWorse | federated-learning/model/fedavg.go:11-34 | on every data set the averaged model's loss is at most the sample-weighted mean of the clients' losses |
| Averaging.GradSumConcat | federated-learning/model/model.go:40-46 | the gradient over concatenated data is the sum of the gradients |
| Averaging.SharesAddUp | federated-learning/model/fedavg.go:22-27 | the clients' one-epoch models, weighted, add up to the common model and the gradient over all data |
| Averaging.OneEpochIsCentralised | federated-learning/model/fedavg.go:11-34 | averaging one-epoch results is one epoch of training on all the data, however it was split |
| LocalEpochs.UpToOneEpoch | federated-learning/model/fedavg.go:11-34 | with at most one local epoch a round is centralised training on all the data |
| LocalEpochs.OneClient | federated-learning/model/fedavg.go:11-34 | a single client's model is the average, however many epochs it trained for |
| LocalEpochs.SomeRoundRaisesLoss | federated-learning/actors/client.go:35 | for any two or more clients and epochs some round at a safe rate raises the loss over all the data |
| LocalEpochs.CentralisedExactly | federated-learning/model/fedavg.go:11-34 | a round equals centralised training for all data, rates and starting models exactly when there is at most one client or one local epoch |
| LocalEpochs.DescentExactly | federated-learning/model/fedavg.go:11-34 | no round at a safe rate raises the loss over all the data exactly when there is at most one client or one local epoch |
| DataPreparation.Partition | federated-learning/data/partition.go:15-37 | n parts whose concatenation is the shuffled or sorted copy, so no sample is lost or repeated; every part has |samples| / n of them, the last also the remainder |
| DataPreparation.NoClientIsEmptyHanded | federated-learning/data/partition.go:26-35 | every part is non-empty exactly when there are at least as many samples as clients |
| DataPreparation.FeatureBounds | federated-learning/data/partition.go:43-61 | the scan finds each feature's least and greatest value among the samples that have it, both attained |
| DataPreparation.TargetBounds | federated-learning/data/partition.go:72-81 | the scan finds the least and the greatest target, both attained |
| DataPreparation.Normalize | federated-learning/data/partition.go:39-91 | in place, in every column of different least and greatest value, new * (max - min) + min is the old value, likewise for targets; constant columns are untouched, samples with fewer features included, and the bounds of the original columns are returned |
| DataPreparation.RescaleRow | federated-learning/data/partition.go:64-69 | one sample's features are rescaled in place, every other sample left alone |
| DataPreparation.InvertibleScalesToUnit | federated-learning/data/partition.go:63-90 | so the least value goes to 0, the greatest to 1, nothing else does, and order is kept |
| DataPreparation.RescaledIsScaledFrom | federated-learning/data/partition.go:63-90 | scaling can be undone from the bounds, features and target alike |
| DataPreparation.ScaledColumn | federated-learning/data/partition.go:63-70 | a scaled column lies in [0,1] exactly when it was not constant, or was a constant in [0,1] |
| DataPreparation.NormalizedDataTrainsSafely | federated-learning/data/partition.go:63-70 | rates up to 1/(features + 1) are safe on every client's share of the normalised data |
| KMeansClustering.ClosestIsFirstNearest | federated-learning/actors/clustermanager.go:67-72 | the scan picks a nearest centre, and of several the first |
| KMeansClustering.ReassigningNeverRaisesCost | federated-learning/actors/clustermanager.go:66-77 | the assignment pass never raises the cost of any assignment |
| KMeansClustering.ShiftCentre | federated-learning/actors/clustermanager.go:87-100 | the cost of a cluster about any point is its cost about the mean plus size times squared distance |
| KMeansClustering.CentroidIsBest | federated-learning/actors/clustermanager.go:87-100 | no centre beats the mean of a cluster |
| KMeansClustering.CostSplits | federated-learning/actors/clustermanager.go:87-100 | the total cost is the sum of the costs of the clusters |
| KMeansClustering.UpdatingNeverRaisesCost | federated-learning/actors/clustermanager.go:81-101 | replacing all centres never raises the cost, though empty clusters are reset to the zero vector |
| KMeansClustering.RoundNeverRaisesCost | federated-learning/actors/clustermanager.go:64-102 | a whole iteration never raises the cost |
| KMeansClustering.CostNeverRises | federated-learning/actors/clustermanager.go:64-102 | no number of iterations raises the cost |
| KMeansClustering.EarlyStopIsSettled | federated-learning/actors/clustermanager.go:64-80 | allowing one more iteration changes nothing exactly when the run has settled |
| KMeansClustering.SettledIsNearest | federated-learning/actors/clustermanager.go:78-80 | if the loop stops because nothing changed, every client is at a nearest centre |
| KMeansClustering.KMeans | federated-learning/actors/clustermanager.go:54-104 | the loops compute the specified iteration, at most 100 rounds from the first k clients as centres; where every mean is that of one of the first k clients, all different, everyone joins the client of equal mean |
| KMeansClustering.Iterate | federated-learning/actors/clustermanager.go:64-102 | the loop reassigns and updates until nothing changes, at most a hundred times |
| KMeansClustering.FirstPassSeeksFirstClients | federated-learning/actors/clustermanager.go:58-77 | the first pass puts every client with the first nearest of clients 0 to k - 1 |
| KMeansClustering.RepresentedJoinTheirOwn | federated-learning/actors/clustermanager.go:58-102 | if the first k means are all different and there are no others, the final assignment sends every client to the one of equal mean |
| KMeansClustering.Reassign | federated-learning/actors/clustermanager.go:65-77 | the pass stores every client's closest centre and reports truthfully whether any changed |
| KMeansClustering.UpdateCentres | federated-learning/actors/clustermanager.go:81-101 | the new centres are the means of the clusters, the zero vector for an empty one |
| KMeansClustering.SumAndCount | federated-learning/actors/clustermanager.go:82-93 | sums and sizes of all clusters are accumulated in one pass |
| ClusterManagement.MembersAreThoseAssigned | federated-learning/actors/clustermanager.go:38-41 | a group's member list names exactly the clients assigned to it |
| ClusterManagement.MembersInOrder | federated-learning/actors/clustermanager.go:38-41 | a client stands in its group's list after exactly the members registered before it |
| ClusterManagement.FirstRegisteredCoordinates | federated-learning/actors/clustermanager.go:47-50 | the coordinator of a group is its member that registered first |
| ClusterManagement.GroupsPartitionClients | federated-learning/actors/clustermanager.go:38-41 | the groups' sizes add up to the number of clients |
| ClusterManagement.ClusterManagerActor.Receive | federated-learning/actors/clustermanager.go:25-33 | from the expected number of registrations on, each one sends every client its assignment |
| ClusterManagement.ClusterManagerActor.ClusterAndAssign | federated-learning/actors/clustermanager.go:35-52 | every client is told its own group, which contains it, with the group's first member as coordinator |
| ClusterManagement.ClusterManagerActor.Group | federated-learning/actors/clustermanager.go:38-41 | the loop collects every group's ids in registration order |
| Ring.VirtualKeyInjective | actor-framework/cluster/hashring.go:38-40 | "node#i" determines node and i, even for names containing '#' |
| Ring.VirtualKeyFormat | actor-framework/cluster/hashring.go:38-40 | virtual keys are written as the node, "#" and the decimal number |
| Ring.DistinctKeysDoNotCollide | actor-framework/cluster/hashring.go:38-40 | a hash injective on the virtual keys in use gives every node points of its own, all different |
| Ring.DecimalInjective | actor-framework/cluster/hashring.go:39 | decimal notation is injective |
| Ring.RingIsUnique | actor-framework/cluster/hashring.go:11-16 | two rings that represent a set of nodes are equal |
| Ring.OwnerIsUnique | actor-framework/cluster/hashring.go:67-84 | a ring gives a key at most one owner |
| Ring.OwnerDependsOnNodesOnly | actor-framework/cluster/hashring.go:67-84 | two rings for the same set answer alike, with a member of the set, or "" if it is empty |
| Ring.OwnPointIsOwn | actor-framework/cluster/hashring.go:67-84 | a virtual key used as a key is owned by its node |
| Ring.PointsAdded | actor-framework/cluster/hashring.go:38-43 | the loop of Add gives the node exactly its points and changes no other |
| Ring.PointsRemoved | actor-framework/cluster/hashring.go:52-56 | the loop of Remove deletes exactly the node's points |
| Ring.AddRefines | actor-framework/cluster/hashring.go:30-47 | Add, its guard included, is insertion into the set of nodes exactly when the new set has no collision between nodes |
| Ring.RemoveRefines | actor-framework/cluster/hashring.go:49-65 | Remove is removal from the set of nodes exactly when the removed node collides with none of them |
| Ring.AddMovesOnlyToNewNode | actor-framework/cluster/hashring.go:30-47 | adding a node changes a key's owner only to that node |
| Ring.RemoveMovesOnlyOwnKeys | actor-framework/cluster/hashring.go:49-65 | removing a node leaves every key it did not own |
| Ring.AddRemoveRestores | actor-framework/cluster/hashring.go:30-65 | adding a fresh node and removing it restores the very same ring |
| Ring.RingRepresentsCurrentSet | actor-framework/cluster/hashring.go:30-65 | after any sequence of additions and removals of nodes that do not collide the ring represents the current set |
| Ring.HistoryIsForgotten | actor-framework/cluster/hashring.go:30-65 | two such sequences that leave the same set leave the same ring |
| Ring.RepresentableExactly | actor-framework/cluster/hashring.go:30-65 | a set of nodes has a ring exactly when no two of its nodes collide |
| Ring.CollisionsMakeHistoryMatter | actor-framework/cluster/hashring.go:34-43 | which of two nodes was added first is of no matter exactly when they do not collide or one swallows the other's points |
| Ring.SortSorts | actor-framework/cluster/hashring.go:44-46 | sorting keeps the elements and orders them |
| Ring.KeptSorted | actor-framework/cluster/hashring.go:58-63 | filtering by the map keeps the order and exactly the points still in the map |
| Ring.HashRing.constructor | actor-framework/cluster/hashring.go:18-23 | a new ring stands for the empty set |
| Ring.HashRing.Append | actor-framework/cluster/hashring.go:42 | append in place while the backing array has room, otherwise into a copy |
| Ring.HashRing.Add | actor-framework/cluster/hashring.go:30-47 | slice sorted and equal to the map's keys whatever the hash does; the ring of nodes + {node} exactly when those do not collide |
| Ring.HashRing.Remove | actor-framework/cluster/hashring.go:49-65 | slice sorted and equal to the map's keys whatever the hash does, through the filter over its own backing array; the ring of nodes - {node} exactly when the node collides with none of them |
| Ring.HashRing.Filter | actor-framework/cluster/hashring.go:58-64 | reading and writing the same array keeps exactly the surviving points, in order |
| Ring.HashRing.Get | actor-framework/cluster/hashring.go:67-84 | binary search with wrap-around: the node of the first point at or after the key's hash, past the last point that of the first of all, "" on an empty ring |
| Membership.MemberList.Upsert | actor-framework/cluster/gossip.go:188-192 | the record replaces whatever was stored under its id |
| Membership.MemberList.Merge | actor-framework/cluster/gossip.go:216-229 | records are taken over one by one if unknown or strictly newer, and those taken are returned in order |
| Membership.ChangesAreNewer | actor-framework/cluster/gossip.go:216-229 | the records returned are incoming ones newer than what was stored, of rising version where they share an id, and every record that ends up different is among them |
| Membership.StaleVerdictLowersVersion | actor-framework/cluster/gossip.go:156-186 | writing a verdict on a record read before a merge lowers the version exactly when an incoming record of the member was more than one version ahead |
| Membership.MergeIsJoin | actor-framework/cluster/gossip.go:216-229 | a merge is a least upper bound by version, however often an id occurs in the message |
| Membership.MergeAllIsJoin | actor-framework/cluster/gossip.go:131-141 | the outcome of any sequence of messages is a least upper bound by version of the list and all their records |
| Membership.DeliveryOrderIrrelevant | actor-framework/cluster/gossip.go:216-229 | the same messages in any order and multiplicity give the same versions and the same live members |
| Membership.WinnerExists | actor-framework/cluster/gossip.go:216-229 | the final record of an id is the stored one or the one some message alone would have brought |
| Membership.TiesMayDisagree | actor-framework/cluster/gossip.go:223 | on equal versions the first record to arrive stays, whatever the list and whatever else the records say |
| Membership.OrderIrrelevantExactly | actor-framework/cluster/gossip.go:216-229 | whole records are independent of order and multiplicity of delivery exactly when any two messages that alone would bring an id to its final version would bring the same record |
| Membership.LeadersDecideExactly | actor-framework/cluster/gossip.go:216-229 | in terms of the records: exactly when any two messages agree on the newest record of an id, taking in each message the first of its version, if it is newer than the stored one |
| Membership.NoTiesConverge | actor-framework/cluster/gossip.go:216-229 | whole records are independent of order and multiplicity of delivery if no two known records share id and version and differ |
| Membership.ReseedingExactly | actor-framework/cluster/cluster.go:50-52 | a seeded record revives a member, and lowers its version, exactly when it overwrites a positive version |
| Membership.ViewStaysFresh | actor-framework/cluster/gossip.go:131-186 | every action, stale verdicts and reseeding included, keeps "alive exactly at version 0"; all but reseeding revive no member, all but these two lower no version |
| Membership.StepKeepsFresh | actor-framework/cluster/gossip.go:101-186 | every step of the system keeps stored and travelling records alive exactly at version 0 |
| Membership.RunsStayFresh | actor-framework/cluster/gossip.go:101-186 | in every run, with detection interrupted and members reseeded or not, every stored or travelling record is alive exactly at version 0 |
| Membership.NoneComesBack | actor-framework/cluster/gossip.go:156-229 | in every run without reseeding, with detection interrupted or not, a member once suspected or dead at a node is never alive there again |
| Membership.VersionsNeverFall | actor-framework/cluster/gossip.go:156-229 | in every run with uninterrupted detection and without reseeding versions at a node never fall |
| Clusters.MergeKeepsAgreement | actor-framework/cluster/cluster.go:26-35 | after a merge and its callbacks ring and list agree, even with several records for one id |
| Clusters.DetectionKeepsAgreement | actor-framework/cluster/gossip.go:156-186 | after a detection pass and its callbacks ring and list agree |
| Clusters.DetectionMeans | actor-framework/cluster/gossip.go:156-186 | silence of 12 s makes a member dead, one version up, and takes it off the ring; otherwise silence of 6 s makes it suspected, one version up, on the ring if it was; every other record is unchanged |
| Clusters.InterruptedPassesKeepAgreement | actor-framework/cluster/gossip.go:156-186 | however gossip, seeding and the verdicts of a detection pass on records read earlier mix, ring and member list agree after every one of them |
| Clusters.SeedAgreementExactly | actor-framework/cluster/cluster.go:50-55 | Seed keeps the agreement exactly when it does not declare dead a node on the ring |
| Clusters.Cluster.constructor | actor-framework/cluster/cluster.go:10-37 | a new cluster knows itself alive at version 0 and has itself on the ring |
| Clusters.Cluster.Notify | actor-framework/cluster/cluster.go:26-35 | the callback adds an alive node, removes a dead one, leaves the ring for a suspected one, then tells the listeners |
| Clusters.Cluster.HandleGossip | actor-framework/cluster/gossip.go:131-141 | list merged, ring following each change, sender's time stored, agreement kept |
| Clusters.Cluster.NotifyAll | actor-framework/cluster/gossip.go:136-140 | the callbacks are called for the changed records in their order |
| Clusters.Cluster.DetectFailures | actor-framework/cluster/gossip.go:156-186 | dead and off the ring after 12 s of silence at the first reading of the clock, otherwise suspected after 6 s at the second and left on the ring if it was there, each one version up; all others, the unheard and the node itself unchanged; in any order of the map, agreement kept |
| Clusters.Cluster.Examine | actor-framework/cluster/gossip.go:158-184 | one member's verdict: dead at 12 s of silence, else suspected at 6 s, with its version raised |
| Clusters.Cluster.ExamineRead | actor-framework/cluster/gossip.go:158-184 | the verdict on a record read some time ago, dead from 12 s of silence and otherwise suspected from 6 s, is stored, applied to the ring and notified, and agreement kept, whatever happened in between |
| Clusters.Cluster.Seed | actor-framework/cluster/cluster.go:50-55 | the record is overwritten unconditionally and an alive node added; agreement kept exactly as stated above |
| Clusters.Cluster.GossipOnce | actor-framework/cluster/gossip.go:101-118 | the whole member list goes to one alive peer other than the node itself, exactly if there is one |
| Clusters.Cluster.LivePeers | actor-framework/cluster/gossip.go:101-106 | the alive members other than the node itself |
| Clusters.Cluster.AllMembers | actor-framework/cluster/gossip.go:194-202 | every record of the list and no other |
| Clusters.Cluster.ResponsibleNode | actor-framework/cluster/cluster.go:42-44 | the answer owns the key and is a known member that is not dead, or "" on an empty ring |
| Clusters.Cluster.IsLocal | actor-framework/cluster/cluster.go:46-48 | true exactly when the local node owns the key |
| Clusters.EqualRingsAgree | actor-framework/cluster/cluster.go:42-44 | clusters with equal ring sets, hash and replica counts agree on every owner |
| FederatedActors.CoordinatorActor.Receive | federated-learning/actors/coordinator.go:56-86 | the handler's effect on its fields and what it sends, message by message |
| FederatedActors.CoordinatorActor.StartNextRound | federated-learning/actors/coordinator.go:122-145 | after the last round DoneCh is closed; otherwise the next round goes to every client |
| FederatedActors.AggregatorActor.Receive | federated-learning/actors/aggregator.go:31-46 | an update of another round starts a new set; a full set is aggregated |
| FederatedActors.AggregatorActor.Aggregate | federated-learning/actors/aggregator.go:59-77 | the average of the models and of the losses goes to the coordinator and the set is emptied |
| FederatedActors.LossOrderIrrelevant | federated-learning/actors/aggregator.go:62-66 | the averaged loss does not depend on the order in which updates arrived |
| FederatedActors.LossesWeighEqually | federated-learning/actors/aggregator.go:62-66 | changing one client's loss by x changes the averaged loss by x over the number of updates, whatever the numbers of samples |
| FederatedActors.AverageOfEqualLosses | federated-learning/actors/aggregator.go:62-66 | equal losses are their own average |
| FederatedActors.MonitorActor.Receive | federated-learning/actors/monitor.go:33-67 | the model is copied in place; a completed round is evaluated, logged and reported, unless there is no model or no validation set; the report says converged exactly if the root of the reported error is below the threshold |
| FederatedActors.ConvergedMeansRootBelow | federated-learning/actors/monitor.go:50-53 | comparing squares decides what comparing the root with the threshold would, for every threshold |
| FederatedActors.ReportsAreHonest | federated-learning/actors/monitor.go:50-66 | for every message, the flag of a report holds exactly if the root of the reported error is below the threshold |
| FederatedActors.Evaluate | federated-learning/actors/monitor.go:45-50 | predictions first, then errors: the mean squared error on the validation set |
| FederatedActors.CopyWeights | federated-learning/actors/client.go:32 | copying makes the weights equal |
| FederatedActors.ClientActor.Receive | federated-learning/actors/client.go:28-45 | a start of round is answered by one update: the global model trained on the client's own data |
| FederatedActors.ReportedLossIsOwn | federated-learning/actors/client.go:35-45 | the loss a client reports is that of the model it sends, on its own data, and at a safe rate no more than that of the model it received |
| RoundProtocol.FullHouse | federated-learning/actors/aggregator.go:45-47 | as many distinct genuine updates as clients are one from each client, whatever their order |
| RoundProtocol.RoundBegins | federated-learning/actors/coordinator.go:122-145 | between rounds the coordinator ends the run or starts the next round, in a state of the protocol |
| RoundSteps.ClientDelivers | federated-learning/actors/client.go:28-45 | a client's delivery keeps the invariant and uses up one unit of work |
| RoundSteps.AggregatorDelivers | federated-learning/actors/aggregator.go:31-77 | the aggregator's delivery keeps the invariant and uses up one unit of work, both when it collects and when it completes a round |
| RoundSteps.CompletedRound | federated-learning/actors/aggregator.go:59-77 | completing a round empties the clients' and aggregator's queues and sends exactly the round's average of one update per client |
| RoundSteps.CoordinatorDelivers | federated-learning/actors/coordinator.go:56-86 | the coordinator's delivery keeps the invariant and uses up one unit of work, for the start, a result and a report; a converged report ends the run |
| RoundSteps.MonitorDelivers | federated-learning/actors/monitor.go:33-67 | the monitor's delivery keeps the invariant and uses up one unit of work, for the model and for the completed round |
| RoundSteps.RoundAverage | federated-learning/actors/aggregator.go:59-66 | whatever order the updates came in, their average is that round's global model |
| RoundSteps.DeliveryKeepsInv | federated-learning/actors/coordinator.go:56-145 | any delivery from a state of the protocol leads to a state of the protocol with less to do, and itself loses no update |
| RoundSteps.DropKeepsInv | actor-framework/mailbox.go:53-65 | an update that meets a full mailbox leaves a state of the protocol too |
| RoundSteps.MailIsDeliverable | federated-learning/actors/aggregator.go:31-47 | no handler is handed a message it cannot process |
| RoundSteps.MailUntilDone | federated-learning/actors/coordinator.go:122-129 | DoneCh is closed at most once, and then no round message is waiting; while it is open one is, if no update of the round was lost |
| RoundSteps.NoClientsStall | federated-learning/actors/coordinator.go:130-144 | with no clients the first round is never answered and DoneCh stays open |
| FederatedRuns.Occupancy | federated-learning/actors/aggregator.go:31-47 | at most N round messages wait at the aggregator, two at the monitor, one elsewhere |
| FederatedRuns.EverythingFits | actor-framework/mailbox.go:53-65 | only the aggregator's mailbox can ever be too full for what a handler sends, lifecycle messages included, and not even that one with at most 99 clients |
| FederatedRuns.StepIsRefined | actor-framework/mailbox.go:53-65 | with any number of clients every step with bounded mailboxes is a delivery of the protocol, the loss of one client's update, or invisible to it |
| FederatedRuns.StepIsLossless | actor-framework/mailbox.go:53-65 | with at most 99 clients no step loses any message |
| FederatedRuns.StepKeepsSound | federated-learning/actors/coordinator.go:56-145 | with any number of clients every step keeps the protocol's invariant underneath the lifecycle messages |
| FederatedRuns.RunsAreSound | federated-learning/actors/coordinator.go:56-145 | every moment of every interleaving satisfies the invariant, whatever was lost, with a bounded number of lifecycle messages beside the round messages |
| FederatedRuns.RunsAreComplete | actor-framework/mailbox.go:53-65 | with at most 99 clients no update of the round under way is ever missing |
| FederatedRuns.DeliveriesAreBounded | federated-learning/actors/coordinator.go:122-145 | a run delivers at most its budget of round messages, however it goes |
| FederatedRuns.BudgetIsProduct | federated-learning/actors/coordinator.go:122-145 | the budget is TotalRounds * (2N + 4) besides the start message |
| FederatedRuns.RunsDoNotStall | federated-learning/actors/coordinator.go:76-86 | DoneCh is closed at most once, and then no round message is left anywhere; while it is open some actor can act, unless an update of the round was lost |
| FederatedRuns.RunsComputeTheRounds | federated-learning/actors/aggregator.go:31-77 | with any number of clients and whatever was lost, rounds are aggregated 1, 2, 3, ..., each from exactly one update per client, each evaluated as that round's average; in a completed run all rounds but the last have a root mean squared error of at least the threshold, and the last one less unless it is round TotalRounds |
| RunTermination.EveryActionCounts | federated-learning/actors/coordinator.go:56-145 | every action, boots, assignments, lifecycle messages and losses included, lowers one measure |
| RunTermination.RunsEnd | federated-learning/actors/coordinator.go:56-145 | no run has more than 4N + 7 actions beside its budget of round messages |
| RunTermination.StuckMeansDone | federated-learning/actors/coordinator.go:122-129 | a run in which nothing more can happen has closed DoneCh, once, exactly if no update of the round was lost, and always with at most 99 clients |
| RunTermination.RunsAreClosable | federated-learning/actors/coordinator.go:122-129 | with at most 99 clients every run can be continued to one that closes DoneCh |
| RunTermination.NoValidationStalls | federated-learning/actors/monitor.go:41-44 | without a validation set the monitor never reports and no run closes DoneCh |
| RunTermination.StaysLost | federated-learning/actors/aggregator.go:33-47 | once too few updates of round 1 are left, every step keeps it so |
| RunTermination.HundredClientsStall | actor-framework/mailbox.go:53-65 | with a hundred clients or more some run loses an update to a full mailbox, and nothing that follows closes DoneCh |
| RunTermination.ClosableExactly | federated-learning/actors/coordinator.go:122-145 | given data, DoneCh can always still come to be closed exactly when there is no round to run, or there is a validation set and there are at most 99 clients |
| FederatedTheorems.RoundsAreCentralisedEpochs | federated-learning/model/fedavg.go:11-34 | with one client or at most one epoch per round, k rounds compute epochs * k epochs of training on all clients' data |
| FederatedTheorems.RoundsCentralisedExactly | federated-learning/actors/client.go:35 | rounds add up to centralised training, for every configuration, exactly when there is at most one client or one local epoch |
| FederatedTheorems.RoundsDescendExactly | federated-learning/actors/client.go:35 | at a safe rate no number of rounds ends above the zero model's loss, for every configuration, exactly when there is at most one client or one local epoch |
| FederatedTheorems.FederatedIsCentralised | federated-learning/actors/coordinator.go:56-145 | whatever the interleaving and the number of clients, a completed run with one client or at most one local epoch leaves the centralised model |
| FederatedTheorems.FederatedRunDescends | federated-learning/actors/coordinator.go:66-68 | at a safe rate a completed run with one client or at most one local epoch ends with a loss over all training data of at most that of the zero model |
| FederatedTheorems.CompletedRunsAgree | federated-learning/actors/coordinator.go:56-145 | any two completed runs of one configuration stop after the same round with the same model and the same log, losses included |
| MsgHeaps.RootIsLeast | actor-framework/mailbox.go:245-256 | nothing in a heap comes before its root |
| MsgHeaps.UpStep | actor-framework/mailbox.go:254-264 | one swap of sifting up moves the only disorder to the parent |
| MsgHeaps.DownStep | actor-framework/mailbox.go:254-272 | one swap of sifting down moves the only disorder to the child |
| MsgHeaps.MsgHeap.Push | actor-framework/mailbox.go:194 | the message is added to the heap's contents, and heap order kept |
| MsgHeaps.MsgHeap.Pop | actor-framework/mailbox.go:229 | one message is taken out, none comes before it, and heap order kept |
| MsgHeaps.MsgHeap.Up | actor-framework/mailbox.go:254-264 | sifting up restores heap order and keeps the contents |
| MsgHeaps.MsgHeap.Down | actor-framework/mailbox.go:254-272 | sifting down restores heap order among the first n and keeps the contents |
| PriorityMailboxes.StepConserves | actor-framework/mailbox.go:188-241 | every step keeps: accepted messages are the heap, the one in hand, those sent out and those consumed, as multisets |
| PriorityMailboxes.StepKeepsAwake | actor-framework/mailbox.go:188-241 | every step keeps: a non-empty heap has a pending signal, a closed one or an active drain |
| PriorityMailboxes.StepKeepsOrder | actor-framework/mailbox.go:222-241 | every step keeps: messages consumed, waiting outside and in hand are those popped, in the order of popping |
| PriorityMailboxes.NoWakeUpIsLost | actor-framework/mailbox.go:188-241 | conservation, wakefulness and the order of popping hold at every moment of every interleaving |
| PriorityMailboxes.SomeoneIsForemost | actor-framework/mailbox.go:228-229 | a non-empty heap has a message to pop |
| PriorityMailboxes.BlockedMeansDelivered | actor-framework/mailbox.go:222-241 | when the drain thread has nothing to do everything accepted has come out; after Close it has returned |
| PriorityMailboxes.ProcessMakesProgress | actor-framework/mailbox.go:222-241 | each step of the drain thread lowers a measure |
| PriorityMailboxes.PriorityMailbox.Enqueue | actor-framework/mailbox.go:188-200 | refused once closed, otherwise heap and signal change together |
| PriorityMailboxes.PriorityMailbox.Close | actor-framework/mailbox.go:202-210 | closing is idempotent and touches nothing else |
| PriorityMailboxes.PriorityMailbox.ReceiveSignal | actor-framework/mailbox.go:225-227 | takes the buffered token, or sees the closed channel |
| PriorityMailboxes.PriorityMailbox.TakeNext | actor-framework/mailbox.go:228-238 | pops a foremost message, or leaves the drain loop |
| PriorityMailboxes.PriorityMailbox.Emit | actor-framework/mailbox.go:231 | the message in hand goes to the output channel if there is room |
| Supervision.WindowDrops | actor-framework/supervision/supervisor.go:60-80 | the stored window is the history without a prefix at or before the cutoff |
| Supervision.WindowCountsExactly | actor-framework/supervision/supervisor.go:60-80 | the count returned is the number of failures in (now - window, now] over the full history |
| Supervision.WatchInvariant | actor-framework/supervision/supervisor.go:34-53 | after any failures the record is the window over the restarts since the last escalation, each within budget |
| Supervision.BudgetHoldsEverywhere | actor-framework/supervision/supervisor.go:38-41 | a budget respected at every restart is respected in every window, wherever it lies |
| Supervision.RestartsStayWithinBudget | actor-framework/supervision/supervisor.go:34-53 | between escalations no window holds more than MaxRestarts Restart verdicts |
| Supervision.RestartTracker.Record | actor-framework/supervision/supervisor.go:61-82 | the actor's record is pruned and extended, the others left alone, and its length returned |
| Supervision.RestartTracker.Reset | actor-framework/supervision/supervisor.go:84-88 | the actor's record is forgotten |
| Supervision.Supervisor.Handle | actor-framework/supervision/supervisor.go:34-53 | a decider's verdict other than Restart is final; Restart stands, with the delay for this many restarts, as long as the record stays within budget, and is otherwise an escalation that forgets the record; every other actor's record unchanged |
| ActorLoop.DeliverySurvivesRestarts | actor-framework/system.go:207-295 | in every run accepted messages are the consumed ones followed by the buffer; the loop never reads a closed channel; a graceful stop has consumed all and alone calls OnStop, once; the parent hears of at most one failure, at the end |
| ActorLoop.StartsAreExplained | actor-framework/system.go:207-275 | every OnStart but the first answers one Restart verdict or one forceRestart message, and each is answered |
| ActorLoop.LifeIsRecorded | actor-framework/system.go:247-250 | OnPreRestart is called once for every Restart verdict |
| ActorLoop.LifecycleMessagesMatch | actor-framework/system.go:207-279 | if nobody else sends lifecycle messages and none of its own is refused, an actor has accepted Started once per start, Restarting once per restart with the error of that failure, in order, Stopping once from the stop on and forceRestart once per one-for-all wake |
| ActorLoop.ParentHearsTheError | actor-framework/system.go:179-186 | the parent is told of a failure exactly if it was escalated, with the id of the actor and the error of that failure |
| ActorLoop.RestartBudgetOverLife | actor-framework/system.go:239-275 | over an actor's whole life, also under an id its supervisor already has a record of, no window holds more than MaxRestarts restarts by verdict |
| ActorLoop.GivesUpAfterBudget | actor-framework/system.go:207-275 | an actor that always fails calls OnStart exactly MaxRestarts + 1 times and tells its parent exactly one ActorFailed |
| ActorLoop.FailingNeverBlocks | actor-framework/system.go:215-236 | an actor that always fails has a step to take until it has given up |
| ActorLoop.GivingUpTakesFewSteps | actor-framework/system.go:207-275 | it gives up: at most four steps of its own for each start, and it has ended exactly when it has taken 4 * MaxRestarts + 3 of them (3 if MaxRestarts is negative) |
| ActorLoop.ResumingActorCarriesOn | actor-framework/system.go:245-246 | under a decider that always resumes, an actor that receives no forceRestart starts once and ends only by a stop, whatever fails |
| ActorLoop.FirstPanicIsFinal | actor-framework/system.go:240-271 | without a supervisor, or under one that always stops, nothing is consumed, started or told to the parent after the first panic |
| ActorLoop.DrainConsumesAll | actor-framework/system.go:277-288 | the stop ends gracefully exactly when no remaining message panics, and then all have been consumed |
| ActorLoop.BoundedMailbox.Enqueue | actor-framework/mailbox.go:53-65 | error when closed, error when full, otherwise appended |
| ActorLoop.BoundedMailbox.Close | actor-framework/mailbox.go:67-75 | closed afterwards, contents kept |
| ActorLoop.BoundedMailbox.Take | actor-framework/system.go:228-231 | the oldest message, or not ok once closed and empty |
| ActorLoop.ActorCell.constructor | actor-framework/system.go:94-109 | a new cell about to start, with an empty mailbox of capacity 100 and whatever record its supervisor has of the id |
| ActorLoop.ActorCell.Tell | actor-framework/system.go:337-339 | a message that is refused is lost silently |
| ActorLoop.ActorCell.StartPhase | actor-framework/system.go:207-222 | OnStart is called and Started goes to the end of the actor's own mailbox if that is open and has room |
| ActorLoop.ActorCell.ReceiveNext | actor-framework/system.go:228-235 | the next message is to be handled, or sends the actor back to its start |
| ActorLoop.ActorCell.AfterInvoke | actor-framework/system.go:236-276 | no panic: on with the loop; a panic without a supervisor: the end |
| ActorLoop.ActorCell.HandlePanic | actor-framework/system.go:243-274 | resume, pause for a restart after the hook and the Restarting message, stop, or escalate to the parent, as the supervisor says |
| ActorLoop.ActorCell.WakeUp | actor-framework/system.go:252-269 | after the delay a one-for-all restart also sends the actor itself forceRestart, and the loop goes back to its start |
| ActorLoop.ActorCell.StopPhase | actor-framework/system.go:277-278 | Stopping goes to the end of the mailbox if that is open and has room, with others still able to send until the mailbox is closed |
| ActorLoop.ActorCell.CloseAndDrain | actor-framework/system.go:279-288 | the mailbox is closed, the rest dispatched, and OnStop called if no message panics |
| ActorLoop.ActorCell.Drain | actor-framework/system.go:280-282 | remaining messages are dispatched in order until one panics |
| ORSets.ORSet.Add | actor-framework/crdt/orset.go:23-30 | the fresh tag joins the element's tags |
| ORSets.ORSet.Remove | actor-framework/crdt/orset.go:32-38 | every tag of the element seen here becomes a tombstone |
| ORSets.ORSet.Contains | actor-framework/crdt/orset.go:40-50 | true exactly when some tag of the element has no tombstone |
| ORSets.ORSet.Size | actor-framework/crdt/orset.go:52-62 | the number of elements contained |
| ORSets.ORSet.Merge | actor-framework/crdt/orset.go:73-102 | the union of both replicas' tags and tombstones, merging with oneself included |
| ORSets.ORSet.Marshal | actor-framework/crdt/orset.go:114-132 | the record's lists say exactly what the maps say, in whatever order |
| ORSets.ORSet.UnmarshalAndMerge | actor-framework/crdt/orset.go:134-153 | merging a record, repeated entries and tags included, is merging the state it records |
| ORSets.MergeIsUnionOfHistories | actor-framework/crdt/orset.go:73-102 | merging the effects of two sets of operations is the effect of their union |
| ORSets.AddExtendsHistory | actor-framework/crdt/orset.go:23-30 | Add is the effect of one more addition |
| ORSets.RemoveExtendsHistory | actor-framework/crdt/orset.go:32-38 | Remove is the effect of one more removal, of the tags it observed |
| ORSets.HasMeansUnobservedAdd | actor-framework/crdt/orset.go:40-50 | an element is contained exactly when some addition of it was observed by no removal |
| ORSets.RunsAreFaithful | actor-framework/crdt/orset.go:23-102 | in every run every replica and snapshot is the effect of the operations it reflects |
| ORSets.SameHistorySameAnswers | actor-framework/crdt/orset.go:40-102 | replicas reflecting the same operations answer Contains and Size alike, however they got there |
| ORSets.TombstonesAreKnown | actor-framework/crdt/orset.go:32-38 | a replica has tombstones only for tags it knows |
| ORSets.OwnOperationIsSeen | actor-framework/crdt/orset.go:23-38 | right after Add the element is present, even if removed before; right after Remove it is absent |
| ORSets.TombstonedMeansObserved | actor-framework/crdt/orset.go:32-38 | a tag is tombstoned somewhere exactly when some Remove of its element has observed it |
| ORSets.AddWins | actor-framework/crdt/orset.go:32-50 | where a tag is known that no Remove of its element had seen, the element is present |
| GCounters.GCounter.Increment | actor-framework/crdt/gcounter.go:26-30 | the own count goes up by one modulo 2^64 |
| GCounters.GCounter.IncrementBy | actor-framework/crdt/gcounter.go:32-36 | the own count goes up by n modulo 2^64 |
| GCounters.GCounter.Value | actor-framework/crdt/gcounter.go:38-46 | the sum of all counts modulo 2^64, in whatever order the map is iterated |
| GCounters.GCounter.Merge | actor-framework/crdt/gcounter.go:54-69 | the larger of the two counts for every id, ids with a zero count not taken over |
| GCounters.GCounter.UnmarshalAndMerge | actor-framework/crdt/gcounter.go:77-90 | merging a marshalled record takes the larger count for every id, as Merge does |
| GCounters.NoCountExceedsItsOwner | actor-framework/crdt/gcounter.go:26-69 | with fewer than 2^64 increments in all, no replica or snapshot exceeds an owner's own count |
| GCounters.ValueNeverExceedsTotal | actor-framework/crdt/gcounter.go:38-46 | no replica ever reports more than was counted, and its sum does not wrap |
| GCounters.ValueNeverFalls | actor-framework/crdt/gcounter.go:38-69 | what a replica reports never falls |
| GCounters.LatestStatesReachTotal | actor-framework/crdt/gcounter.go:54-69 | merging, in any order and with repeats, snapshots with every owner's state gives the total |
| GCounters.ConvergesToTotal | actor-framework/crdt/gcounter.go:54-69 | in every run, a replica that has at some time merged what each other owner has counted reports the total exactly as long as it is below 2^64 |
| GCounters.IncrementRaisesExactly | actor-framework/crdt/gcounter.go:26-36 | an increment raises the own count exactly when it does not pass 2^64 - 1 |
| GCounters.ReportAfterIncrement | actor-framework/crdt/gcounter.go:32-46 | an increment adds to what is reported modulo 2^64, whatever the counts |
| GCounters.ValueFallsExactly | actor-framework/crdt/gcounter.go:32-46 | the value falls after an increment exactly when it passes 2^64 - 1 itself, even if no count does |
| GCounters.MergeGains | actor-framework/crdt/gcounter.go:54-69 | a merge adds to the sum of all counts exactly what the other side is ahead by, id by id |
| GCounters.ValueFallsAtMergeExactly | actor-framework/crdt/gcounter.go:38-69 | after a merge the value falls exactly when it passes 2^64 - 1 together with the value of what the other side is ahead by |

## Left out

- FederatedActors.AggregatorActor.Aggregate: requires at least one sample in all, since reals have no NaN to pass on.
- LinearModels.LinearModel.Train: samples have exactly NumFeatures features, as everywhere in the repository.
- KMeansClustering.Reassign: all feature means have one length, as everywhere in the repository.
- FederatedActors.AggregatorActor.Receive: covers LocalUpdate; RemoveClient, sent only when a client is reported down, is not modelled, nor the register it keeps of the last model.
- FederatedActors.CoordinatorActor.Receive: covers one local run; SetPeers, ClientJoin and ClientDown of distributed mode are not modelled, nor are the round counter and client set it keeps beside the protocol.
- FederatedActors.CoordinatorActor.StartNextRound: without the round counter it increments.
- FederatedActors.MonitorActor.Receive: reports the mean squared error in place of its root, since reals have no square root operation; MAE and R2 are output only.
- RunTermination.ClosableExactly: with no training data at all the averages are NaN, which is not modelled.
- FederatedActors.ClientActor.Receive: clients are numbered instead of named, one number per distinct id.
- DataPreparation.Partition: the shuffled or sorted copy is a parameter, any rearrangement of the samples.
- DataPreparation.Normalize: samples hold their features as values, so samples sharing one feature slice are not captured.
- KMeansClustering.KMeans: distances are compared squared, and a distance of at least the largest float, which the source would skip, does not occur.
- Ring.HashRing.Add: SHA-256 is an arbitrary function from keys to 32-bit points, and sort.Slice is specified by sorting.
- Clusters.Cluster.DetectFailures: one atomic pass; interrupted passes are ExamineRead and InterruptedPassesKeepAgreement.
- Clusters.Cluster.Notify: listeners are a log of the records they are given.
- Membership.RunsStayFresh: any snapshot sent may arrive anywhere at any time, and the timers are not modelled.
- Clusters.Cluster.GossipOnce: the random choice is a parameter, and the transport is left out.
- ActorLoop.DeliverySurvivesRestarts: one actor at a time, everyone else being senders; the behaviour stack, reply channels and panics in lifecycle hooks are not modelled; OnPreStart and OnPostStop are called with OnStart and OnStop.
- Supervision.Supervisor.Handle: the back-off delay is an arbitrary function of the restart count.
- ORSets.ORSet.UnmarshalAndMerge: JSON text, and the error for malformed text, are not modelled; a record is its decoded lists.
- GCounters.GCounter.UnmarshalAndMerge: likewise, a record is the decoded map.
- Rounding, overflow and NaN of floating-point arithmetic.
- The unbounded mailbox, whose Enqueue unlocks before it sends.
- GSet and LWWRegister, Ask and Reply, metrics getters: they would add only easy members.
- Remote actors over gRPC, the registry, data loading, configuration and the demo program: I/O and plumbing.
