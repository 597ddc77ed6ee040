/** The Kubernetes objects the operator reads and writes, reduced to the fields its decisions depend on. */
module Kube {

  datatype Option<+T> = None | Some(value: T)

  datatype Result<+T, +E> = Ok(value: T) | Failed(error: E)

  /** Go's int32, the width of every replica count. */
  newtype int32 = x: int | -0x8000_0000 <= x <= 0x7fff_ffff

  /** A replica count that passed the schema's Minimum=0. */
  type Replicas = r: int32 | 0 <= r

  /** The identity of a namespaced object. */
  datatype Key = Key(namespace: string, name: string)

  // ---------- Pods ----------

  datatype ConditionStatus = True | False | Unknown

  datatype PodCondition = PodCondition(ctype: string, status: ConditionStatus, reason: string, message: string)

  /** The waiting/terminated reasons of one container; None when the container is not in that state. */
  datatype ContainerStatus = ContainerStatus(name: string, waiting: Option<string>, terminated: Option<string>)

  /** The three operator labels; a missing label reads as the empty string, as a Go map does. */
  datatype Labels = Labels(cluster: string, component: string, templateHash: string)

  /** `terminating` is a non-zero deletion timestamp. */
  datatype Pod = Pod(
    key: Key,
    labels: Labels,
    terminating: bool,
    conditions: seq<PodCondition>,
    containers: seq<ContainerStatus>)

  type Pods = map<Key, Pod>

  /** Every stored pod sits under its own identity. */
  ghost predicate WellKeyed(pods: Pods) {
    forall k :: k in pods ==> pods[k].key == k
  }

  // ---------- Services and routes ----------

  /** A controller owner reference. SetControllerReference compares owners by kind and name, IsControlledBy by uid. */
  datatype OwnerRef = OwnerRef(kind: string, name: string, uid: string)

  /** `version` is the resource version of the stored object. */
  datatype Service = Service(
    key: Key,
    labels: map<string, string>,
    annotations: map<string, string>,
    serviceType: string,
    clusterIP: string,
    ports: seq<nat>,
    selector: map<string, string>,
    publishNotReadyAddresses: bool,
    controller: Option<OwnerRef>,
    version: nat)

  datatype RouteKind = GRPCRoute | HTTPRoute

  datatype RouteKey = RouteKey(kind: RouteKind, key: Key)

  datatype RouteCondition = RouteCondition(ctype: string, status: ConditionStatus)

  /** What one gateway reports about a route. */
  datatype Parent = Parent(conditions: seq<RouteCondition>)

  datatype Backend = Backend(service: string, port: nat)

  /** `finalized` routes stay as terminating objects after a delete; the others go at once. */
  datatype Route = Route(
    id: RouteKey,
    labels: map<string, string>,
    annotations: map<string, string>,
    parentRefs: seq<string>,
    hostnames: seq<string>,
    rules: seq<Backend>,
    controller: Option<OwnerRef>,
    parents: seq<Parent>,
    finalized: bool,
    terminating: bool,
    version: nat)

  // ---------- Events ----------

  datatype EventType = Normal | Warning

  datatype Event = Event(etype: EventType, reason: string, note: string)

  // ---------- Formatting ----------

  function Digit(d: nat): char
    requires d < 10
  {
    "0123456789"[d]
  }

  /** The decimal text of a non-negative integer. */
  function Decimal(n: nat): (s: string)
    ensures s != ""
  {
    if n < 10 then [Digit(n)] else Decimal(n / 10) + [Digit(n % 10)]
  }

  lemma {:induction false} DecimalInjective(a: nat, b: nat)
    requires Decimal(a) == Decimal(b)
    ensures a == b
    decreases a + b
  {
    assert Decimal(a)[|Decimal(a)| - 1] == Decimal(b)[|Decimal(b)| - 1];
    if a >= 10 && b >= 10 {
      assert Decimal(a)[..|Decimal(a)| - 1] == Decimal(a / 10);
      assert Decimal(b)[..|Decimal(b)| - 1] == Decimal(b / 10);
      DecimalInjective(a / 10, b / 10);
    }
  }

  /** strconv.FormatInt in base 10. */
  function FormatInt(n: int): string {
    if n < 0 then "-" + Decimal(-n) else Decimal(n)
  }

  lemma FormatIntInjective(a: int, b: int)
    requires FormatInt(a) == FormatInt(b)
    ensures a == b
  {
    if a < 0 && b < 0 {
      assert FormatInt(a)[1..] == Decimal(-a);
      assert FormatInt(b)[1..] == Decimal(-b);
      DecimalInjective(-a, -b);
    } else if a >= 0 && b >= 0 {
      DecimalInjective(a, b);
    } else {
      DecimalHasNoSign(if a < 0 then b else a);
    }
  }

  lemma {:induction false} DecimalHasNoSign(n: nat)
    ensures Decimal(n)[0] != '-'
  {
    if n >= 10 { DecimalHasNoSign(n / 10); }
  }

  function FormatBool(b: bool): string {
    if b then "true" else "false"
  }

  // ---------- Sequences ----------

  ghost predicate Distinct<T>(s: seq<T>) {
    forall i, j :: 0 <= i < j < |s| ==> s[i] != s[j]
  }

  ghost function Elements<T>(s: seq<T>): set<T> {
    set x | x in s
  }

  lemma {:induction false} DistinctCardinality<T>(s: seq<T>)
    requires Distinct(s)
    ensures |Elements(s)| == |s|
  {
    if s == [] {
      assert Elements(s) == {};
    } else {
      var n := |s| - 1;
      DistinctCardinality(s[..n]);
      assert Elements(s) == Elements(s[..n]) + {s[n]};
      assert s[n] !in Elements(s[..n]);
    }
  }
}
