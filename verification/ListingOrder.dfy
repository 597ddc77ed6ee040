/** The order in which a list call returns the workers is not promised. What a settled pool reports depends on it
    exactly in the message, and only when workers that are not Ready explain themselves differently. */
module ListingOrder {
  import opened Kube
  import opened PolarsCluster
  import opened Readiness
  import opened WorkerPool
  import opened WorkerPoolLaws
  import opened WorkerPoolTheorems
  import opened WorkerPoolReports

  /** The current workers that are not Ready. */
  ghost function Unready(pods: Pods, b: Batch): set<Key> {
    set k | k in Current(pods, b) && !PodIsReady(pods[k])
  }

  /** What the pool's message says when it is about this worker. */
  function Complaint(pod: Pod): string {
    "worker pod " + pod.key.name + ": " + PodNotReadyMessage(pod)
  }

  /** All workers that are not Ready would give the same message. */
  ghost predicate OneVoice(pods: Pods, b: Batch) {
    forall k, l :: k in Unready(pods, b) && l in Unready(pods, b) ==> Complaint(pods[k]) == Complaint(pods[l])
  }

  // ---------- What does not depend on the order ----------

  ghost function ReadyKeys(active: seq<Pod>): set<Key> {
    set i | 0 <= i < |active| && PodIsReady(active[i]) :: active[i].key
  }

  lemma ReadyKeysSnoc(active: seq<Pod>)
    requires active != []
    ensures var n := |active| - 1;
            ReadyKeys(active) == ReadyKeys(active[..n]) + if PodIsReady(active[n]) then {active[n].key} else {}
    ensures ReadyKeys(active) <= Keys(active)
  {
    hide PodIsReady;
    var n := |active| - 1;
    forall k | k in ReadyKeys(active[..n]) ensures k in ReadyKeys(active) {
      var i :| 0 <= i < n && PodIsReady(active[..n][i]) && active[..n][i].key == k;
      assert active[i].key == k;
    }
    forall i | 0 <= i < n && PodIsReady(active[i]) ensures active[i].key in ReadyKeys(active[..n]) {
      assert active[..n][i].key == active[i].key;
    }
  }

  lemma {:induction false} CountIsReadyKeys(active: seq<Pod>)
    requires forall i, j :: 0 <= i < j < |active| ==> active[i].key != active[j].key
    ensures CountReady(active) == |ReadyKeys(active)|
  {
    hide PodIsReady;
    if active != [] {
      var n := |active| - 1;
      CountIsReadyKeys(active[..n]);
      ReadyKeysSnoc(active);
      ListedKeyIsLast(active);
      if n > 0 { ReadyKeysSnoc(active[..n]); }
    }
  }

  /** The active workers of an up-to-date listing, as they are stored. */
  lemma ActivesStored(listing: seq<Pod>, pods: Pods, b: Batch)
    requires UpToDate(listing, pods, b)
    ensures var active := Actives(listing, b.hash);
            && Keys(active) == Current(pods, b) && |active| == |Current(pods, b)|
            && (forall i, j :: 0 <= i < j < |active| ==> active[i].key != active[j].key)
            && (forall i :: 0 <= i < |active| ==> active[i].key in Current(pods, b) && pods[active[i].key] == active[i])
  {
    hide Current, Actives, Selected;
    var active := Actives(listing, b.hash);
    var at := ActivesAt(listing, b.hash);
    ActivesAreCurrent(listing, pods, b);
    forall i | 0 <= i < |active|
      ensures active[i].key in Current(pods, b) && pods[active[i].key] == active[i]
    {
      assert listing[at[i]] == active[i];
      assert active[i].key in Keys(active);
    }
    forall i, j | 0 <= i < j < |active| ensures active[i].key != active[j].key {
      assert listing[at[i]] == active[i] && listing[at[j]] == active[j];
    }
    ListedKeys(active);
  }

  lemma ReadyKeysStored(listing: seq<Pod>, pods: Pods, b: Batch)
    requires UpToDate(listing, pods, b)
    ensures ReadyKeys(Actives(listing, b.hash)) == Current(pods, b) - Unready(pods, b)
  {
    hide PodIsReady, UpToDate, Actives;
    ActivesStored(listing, pods, b);
    var active := Actives(listing, b.hash);
    forall k | k in Current(pods, b) && PodIsReady(pods[k]) ensures k in ReadyKeys(active) {
      assert k in Keys(active);
    }
  }

  /** Every up-to-date listing of the same pods gives the same counts and the same verdict. */
  lemma CountsIgnoreOrder(listing: seq<Pod>, other: seq<Pod>, pods: Pods, c: Cluster, b: Batch)
    requires UpToDate(listing, pods, b) && UpToDate(other, pods, b)
    ensures ReportOn(c, Actives(listing, b.hash)).status == ReportOn(c, Actives(other, b.hash)).status
  {
    hide UpToDate, Actives, PodIsReady, Current, Unready, ToInt32, FirstNotReady, CountReady, ReadyKeys;
    ActivesStored(listing, pods, b);
    ActivesStored(other, pods, b);
    ReadyKeysStored(listing, pods, b);
    ReadyKeysStored(other, pods, b);
    CountIsReadyKeys(Actives(listing, b.hash));
    CountIsReadyKeys(Actives(other, b.hash));
  }

  // ---------- What does ----------

  /** The message of a settled pool is empty when every current worker is Ready, and else the complaint of one that is
      not. */
  lemma MessageIsAComplaint(listing: seq<Pod>, pods: Pods, c: Cluster, b: Batch)
    requires UpToDate(listing, pods, b) && Settled(pods, c, b)
    ensures var message := ReportOn(c, Actives(listing, b.hash)).message;
            if Unready(pods, b) == {} then message == ""
            else exists k :: k in Unready(pods, b) && message == Complaint(pods[k])
  {
    hide UpToDate, Actives, PodIsReady, ToInt32, FirstNotReady, CountReady, FormatInt, PodNotReadyMessage;
    ActivesStored(listing, pods, b);
    var active := Actives(listing, b.hash);
    var i := NotReadyPodRecorded(active);
    NoWrap(|active|);
    if i < |active| {
      assert active[i].key in Unready(pods, b);
    } else {
      forall k | k in Current(pods, b) ensures PodIsReady(pods[k]) {
        assert k in Keys(active);
      }
    }
  }

  /** If they speak with one voice, the whole report is the same for every up-to-date listing. */
  lemma OneVoiceAgrees(listing: seq<Pod>, other: seq<Pod>, pods: Pods, c: Cluster, b: Batch)
    requires UpToDate(listing, pods, b) && UpToDate(other, pods, b) && Settled(pods, c, b) && OneVoice(pods, b)
    ensures ReportOn(c, Actives(listing, b.hash)).message == ReportOn(c, Actives(other, b.hash)).message
  {
    hide UpToDate, Actives, ReportOn, Settled, Unready, Complaint;
    MessageIsAComplaint(listing, pods, c, b);
    MessageIsAComplaint(other, pods, c, b);
  }

  /** With at most one worker that is not Ready they do. */
  lemma OneUnreadyIsOneVoice(pods: Pods, b: Batch)
    requires |Unready(pods, b)| <= 1
    ensures OneVoice(pods, b)
  {
    forall k, l | k in Unready(pods, b) && l in Unready(pods, b) ensures k == l {
      if k != l { Subset({k, l}, Unready(pods, b)); }
    }
  }

  // ---------- Every disagreement shows ----------

  /** The listing with one pod moved to the front. */
  function Fronted(listing: seq<Pod>, x: nat): seq<Pod>
    requires x < |listing|
  {
    [listing[x]] + listing[..x] + listing[x + 1..]
  }

  /** Where each pod of the new listing stood. */
  function Origin(x: nat, i: nat): nat {
    if i == 0 then x else if i <= x then i - 1 else i
  }

  lemma FrontedAt(listing: seq<Pod>, x: nat)
    requires x < |listing|
    ensures |Fronted(listing, x)| == |listing|
    ensures forall i :: 0 <= i < |listing| ==> Fronted(listing, x)[i] == listing[Origin(x, i)]
  {
  }

  lemma FrontedKeys(listing: seq<Pod>, x: nat)
    requires x < |listing|
    ensures Keys(Fronted(listing, x)) == Keys(listing)
  {
    FrontedAt(listing, x);
    hide Fronted;
    forall i | 0 <= i < |listing| ensures listing[i].key in Keys(Fronted(listing, x)) {
      var j := if i == x then 0 else if i < x then i + 1 else i;
      assert Fronted(listing, x)[j] == listing[i];
    }
  }

  lemma FrontedIsUpToDate(listing: seq<Pod>, x: nat, pods: Pods, b: Batch)
    requires UpToDate(listing, pods, b) && x < |listing|
    ensures UpToDate(Fronted(listing, x), pods, b)
  {
    FrontedAt(listing, x);
    FrontedKeys(listing, x);
    hide Fronted, Keys, Selected;
  }

  lemma FrontedSpeaks(listing: seq<Pod>, x: nat, pods: Pods, c: Cluster, b: Batch)
    requires UpToDate(listing, pods, b) && Settled(pods, c, b)
    requires x < |listing| && listing[x].key in Unready(pods, b)
    ensures ReportOn(c, Actives(Fronted(listing, x), b.hash)).message == Complaint(listing[x])
  {
    FrontedIsUpToDate(listing, x, pods, b);
    FrontedAt(listing, x);
    hide Fronted, Actives, PodIsReady, ToInt32, FirstNotReady, CountReady, FormatInt, PodNotReadyMessage;
    var front := Fronted(listing, x);
    ActivesStored(front, pods, b);
    var active := Actives(front, b.hash);
    var at := ActivesAt(front, b.hash);
    assert front[0] == listing[x] && 0 in at;
    assert at[0] == 0;
    var i := NotReadyPodRecorded(active);
    NoWrap(|active|);
  }

  /** When two of them would speak differently, so do two up-to-date listings of the same pods: the listings agree on
      the message, whatever they are, exactly when the workers that are not Ready speak with one voice. */
  lemma OrderShows(listing: seq<Pod>, pods: Pods, c: Cluster, b: Batch) returns (one: seq<Pod>, two: seq<Pod>)
    requires UpToDate(listing, pods, b) && Settled(pods, c, b)
    ensures UpToDate(one, pods, b) && UpToDate(two, pods, b)
    ensures ReportOn(c, Actives(one, b.hash)).message == ReportOn(c, Actives(two, b.hash)).message <==> OneVoice(pods, b)
  {
    one, two := listing, listing;
    if !OneVoice(pods, b) {
      var k, l :| k in Unready(pods, b) && l in Unready(pods, b) && Complaint(pods[k]) != Complaint(pods[l]);
      assert k in Keys(listing) && l in Keys(listing);
      var x :| 0 <= x < |listing| && listing[x].key == k;
      var y :| 0 <= y < |listing| && listing[y].key == l;
      hide Fronted, Actives, ReportOn, Complaint, Unready;
      FrontedIsUpToDate(listing, x, pods, b);
      FrontedIsUpToDate(listing, y, pods, b);
      FrontedSpeaks(listing, x, pods, c, b);
      FrontedSpeaks(listing, y, pods, c, b);
      one, two := Fronted(listing, x), Fronted(listing, y);
    }
  }

  lemma PairReport(c: Cluster, a: Pod, z: Pod, hash: string)
    requires Desired(c) == 2 && !PodIsReady(a)
    requires !a.terminating && a.labels.templateHash == hash && !z.terminating && z.labels.templateHash == hash
    ensures ReportOn(c, Actives([a, z], hash)).message == Complaint(a)
  {
    assert [a, z][..1] == [a] && [a][..0] == [];
    assert Actives([a], hash) == [a] && Actives([a, z], hash) == [a, z];
    hide PodIsReady, PodNotReadyMessage, ToInt32, FormatInt, CountReady, Actives;
    assert FirstNotReady([a]) == Some(a);
    NoWrap(2);
  }

  function NewWorker(c: Cluster, name: string, hash: string): Pod {
    Pod(Key(c.key.namespace, name), Labels(c.key.name, COMPONENT_WORKER, hash), false, [], [])
  }

  function NotReadyNote(name: string): string {
    "worker pod " + name + ": pod is not Ready"
  }

  lemma NewWorkerComplains(c: Cluster, name: string, hash: string)
    ensures var pod := NewWorker(c, name, hash); !PodIsReady(pod) && Complaint(pod) == NotReadyNote(name)
  {
  }

  lemma NotesDiffer()
    ensures NotReadyNote("a") != NotReadyNote("b")
  {
    assert NotReadyNote("a")[11] == 'a' && NotReadyNote("b")[11] == 'b';
  }

  /** Two workers that have just been created, listed one way and the other: both listings are up to date, and the
      messages differ. */
  lemma TwoUnreadyDisagree(c: Cluster, hash: string)
    requires Desired(c) == 2
    ensures var a, z := NewWorker(c, "a", hash), NewWorker(c, "b", hash);
            var pods := map[a.key := a, z.key := z];
            && UpToDate([a, z], pods, Batch(c.key.namespace, c.key.name, hash, _ => "", _ => None))
            && UpToDate([z, a], pods, Batch(c.key.namespace, c.key.name, hash, _ => "", _ => None))
            && ReportOn(c, Actives([a, z], hash)).message == NotReadyNote("a")
            && ReportOn(c, Actives([z, a], hash)).message == NotReadyNote("b") != NotReadyNote("a")
  {
    hide ReportOn, Actives, UpToDate, PodIsReady, PodNotReadyMessage, Complaint, NotReadyNote;
    NotesDiffer();
    var a, z := NewWorker(c, "a", hash), NewWorker(c, "b", hash);
    assert a.key.name != z.key.name;
    NewWorkerComplains(c, "a", hash);
    NewWorkerComplains(c, "b", hash);
    PairReport(c, a, z, hash);
    PairReport(c, z, a, hash);
    PairListed(a, z, map[a.key := a, z.key := z], Batch(c.key.namespace, c.key.name, hash, _ => "", _ => None));
    PairListed(z, a, map[a.key := a, z.key := z], Batch(c.key.namespace, c.key.name, hash, _ => "", _ => None));
  }

  lemma PairListed(a: Pod, z: Pod, pods: Pods, b: Batch)
    requires a.key != z.key && pods == map[a.key := a, z.key := z] && Selected(a, b) && Selected(z, b)
    ensures UpToDate([a, z], pods, b)
  {
    var listing := [a, z];
    assert listing[0] == a && listing[1] == z;
  }
}
