/**
 * The grouping helpers of the center comparison card
 * (components/qc/dashboard/center-comparison.tsx): splitting a group name
 * "service/channel" into its parts, bucketing a center's groups by service in
 * first-appearance order, and the error-rate colour bands.
 */
module CenterComparison {
  import opened Wrappers
  import opened Text

  const Wired: string := "유선"
  const Chat: string := "채팅"

  datatype GroupName = GroupName(service: string, channel: Option<string>)

  /** parseGroupName: a trailing "/유선" or "/채팅" is the channel, the rest the service. */
  function ParseGroupName(name: string): (r: GroupName)
    ensures r.channel.Some? ==> (r.channel.value == Wired || r.channel.value == Chat) && r.service + "/" + r.channel.value == name
    ensures r.channel.None? ==> r.service == name
  {
    var parts := Split(name, '/');
    var last := parts[|parts| - 1];
    if (last == Wired || last == Chat) && |parts| >= 2 then
      JoinSplit(name, '/');
      JoinAppend(parts[..|parts| - 1], last, "/");
      assert parts[..|parts| - 1] + [last] == parts;
      GroupName(Join(parts[..|parts| - 1], "/"), Some(last))
    else GroupName(name, None)
  }

  lemma {:induction false} JoinAppend(parts: seq<string>, x: string, sep: string)
    requires |parts| >= 1
    ensures Join(parts + [x], sep) == Join(parts, sep) + sep + x
    decreases |parts|
  {
    if |parts| > 1 {
      assert (parts + [x])[1..] == parts[1..] + [x];
      JoinAppend(parts[1..], x, sep);
    }
  }

  /** A name has a channel exactly when it is some service, '/', and 유선 or 채팅. */
  lemma ParseGroupNameChannel(service: string, channel: string)
    requires channel == Wired || channel == Chat
    ensures ParseGroupName(service + "/" + channel) == GroupName(service, Some(channel))
  {
    var name := service + "/" + channel;
    assert '/' !in channel;
    SplitConcat(service, '/', channel);
    SplitWithout(channel, '/');
    var parts := Split(name, '/');
    assert parts == Split(service, '/') + [channel];
    assert parts[..|parts| - 1] == Split(service, '/');
    JoinSplit(service, '/');
  }

  datatype Group = Group(name: string, errorRate: real, agentCount: int, trend: real)
  datatype Row = Row(channel: Option<string>, group: Group)
  datatype ServiceBucket = ServiceBucket(service: string, rows: seq<Row>)

  /** `!g.name || !g.name.trim()`: the groups the card skips. */
  predicate Blank(g: Group) { Trim(g.name) == [] }

  function ServiceOf(g: Group): string { ParseGroupName(g.name).service }

  function RowOf(g: Group): Row { Row(ParseGroupName(g.name).channel, g) }

  /*
   * The bucketing below is stated for any skip test, key and row builder; the
   * card uses Blank, ServiceOf and RowOf (see GroupedByService).
   */

  /** The keys of the kept groups, each once, in order of first appearance. */
  function KeyOrder(gs: seq<Group>, skip: Group -> bool, key: Group -> string): (order: seq<string>)
    decreases |gs|
  {
    if gs == [] then []
    else
      var o := KeyOrder(gs[..|gs| - 1], skip, key);
      var g := gs[|gs| - 1];
      if skip(g) || key(g) in o then o else o + [key(g)]
  }

  predicate NoRepeats(s: seq<string>) {
    forall i, j :: 0 <= i < j < |s| ==> s[i] != s[j]
  }

  lemma {:induction false} KeyOrderDistinct(gs: seq<Group>, skip: Group -> bool, key: Group -> string)
    ensures NoRepeats(KeyOrder(gs, skip, key))
    decreases |gs|
  {
    if gs != [] {
      var o := KeyOrder(gs[..|gs| - 1], skip, key);
      KeyOrderDistinct(gs[..|gs| - 1], skip, key);
      var g := gs[|gs| - 1];
      if !(skip(g) || key(g) in o) {
        var order := o + [key(g)];
        forall i, j | 0 <= i < j < |order| ensures order[i] != order[j] {
          assert order[i] == o[i] && o[i] in o;
          if j < |o| {
            assert order[j] == o[j];
          }
        }
      }
    }
  }

  /** A key is listed exactly when some kept group has it. */
  lemma {:induction false} KeyOrderMembers(gs: seq<Group>, skip: Group -> bool, key: Group -> string, s: string)
    ensures s in KeyOrder(gs, skip, key) <==> exists k :: 0 <= k < |gs| && !skip(gs[k]) && key(gs[k]) == s
    decreases |gs|
  {
    if gs != [] {
      var init := gs[..|gs| - 1];
      KeyOrderMembers(init, skip, key, s);
      assert forall k :: 0 <= k < |init| ==> gs[k] == init[k];
      if exists k :: 0 <= k < |gs| && !skip(gs[k]) && key(gs[k]) == s {
        var k :| 0 <= k < |gs| && !skip(gs[k]) && key(gs[k]) == s;
        if k < |init| {
          assert init[k] == gs[k];
        }
      }
    }
  }

  /** The rows of the kept groups with key `s`, in input order. */
  function KeyBucket(gs: seq<Group>, skip: Group -> bool, key: Group -> string, row: Group -> Row, s: string): (rows: seq<Row>)
    decreases |gs|
  {
    if gs == [] then []
    else
      var g := gs[|gs| - 1];
      KeyBucket(gs[..|gs| - 1], skip, key, row, s) + (if !skip(g) && key(g) == s then [row(g)] else [])
  }

  /** Every row of a bucket is built from a kept group of the input with that key. */
  lemma {:induction false} KeyBucketSource(gs: seq<Group>, skip: Group -> bool, key: Group -> string,
                                           row: Group -> Row, s: string, i: nat) returns (k: nat)
    requires i < |KeyBucket(gs, skip, key, row, s)|
    ensures k < |gs| && KeyBucket(gs, skip, key, row, s)[i] == row(gs[k]) && !skip(gs[k]) && key(gs[k]) == s
    decreases |gs|
  {
    var init := gs[..|gs| - 1];
    if i < |KeyBucket(init, skip, key, row, s)| {
      k := KeyBucketSource(init, skip, key, row, s, i);
      assert init[k] == gs[k];
    } else {
      k := |gs| - 1;
    }
  }

  /** A key not yet listed has an empty bucket. */
  lemma KeyBucketAbsent(gs: seq<Group>, skip: Group -> bool, key: Group -> string, row: Group -> Row, s: string)
    requires s !in KeyOrder(gs, skip, key)
    ensures KeyBucket(gs, skip, key, row, s) == []
  {
    if KeyBucket(gs, skip, key, row, s) != [] {
      var k := KeyBucketSource(gs, skip, key, row, s, 0);
      KeyOrderMembers(gs, skip, key, s);
    }
  }

  /** Each kept group's row is in the bucket of its key. */
  lemma {:induction false} KeyBucketHolds(gs: seq<Group>, skip: Group -> bool, key: Group -> string, row: Group -> Row, k: nat)
    requires k < |gs| && !skip(gs[k])
    ensures row(gs[k]) in KeyBucket(gs, skip, key, row, key(gs[k]))
    decreases |gs|
  {
    if k < |gs| - 1 {
      var init := gs[..|gs| - 1];
      assert init[k] == gs[k];
      KeyBucketHolds(init, skip, key, row, k);
    }
  }

  /** One pass filling a key map and the order list. */
  method GroupByKey(groups: seq<Group>, skip: Group -> bool, key: Group -> string, row: Group -> Row)
    returns (buckets: seq<ServiceBucket>)
    ensures |buckets| == |KeyOrder(groups, skip, key)|
    ensures forall i :: 0 <= i < |buckets| ==>
      buckets[i] == ServiceBucket(KeyOrder(groups, skip, key)[i], KeyBucket(groups, skip, key, row, KeyOrder(groups, skip, key)[i]))
  {
    var serviceMap: map<string, seq<Row>> := map[];
    var order: seq<string> := [];
    var i := 0;
    while i < |groups|
      invariant 0 <= i <= |groups|
      invariant order == KeyOrder(groups[..i], skip, key)
      invariant forall s :: s in serviceMap <==> s in order
      invariant forall s :: s in serviceMap ==> serviceMap[s] == KeyBucket(groups[..i], skip, key, row, s)
    {
      var g := groups[i];
      ghost var prefix := groups[..i + 1];
      assert prefix[..i] == groups[..i] && prefix[i] == g;
      if !skip(g) {
        var service := key(g);
        if service !in serviceMap {
          KeyBucketAbsent(groups[..i], skip, key, row, service);
          serviceMap := serviceMap[service := []];
          order := order + [service];
        }
        serviceMap := serviceMap[service := serviceMap[service] + [row(g)]];
      }
      i := i + 1;
    }
    assert groups[..i] == groups;
    buckets := seq(|order|, k requires 0 <= k < |order| => ServiceBucket(order[k], serviceMap[order[k]]));
  }

  /** groupByService as a value: one bucket per service, in first-appearance order. */
  function GroupedByService(gs: seq<Group>): seq<ServiceBucket> {
    var order := KeyOrder(gs, Blank, ServiceOf);
    seq(|order|, i requires 0 <= i < |order| => ServiceBucket(order[i], KeyBucket(gs, Blank, ServiceOf, RowOf, order[i])))
  }

  /** groupByService. */
  method GroupByService(groups: seq<Group>) returns (buckets: seq<ServiceBucket>)
    ensures buckets == GroupedByService(groups)
  {
    buckets := GroupByKey(groups, Blank, ServiceOf, RowOf);
  }

  /** Each service is listed once. */
  lemma GroupedByServiceDistinct(gs: seq<Group>)
    ensures var b := GroupedByService(gs);
      forall i, j :: 0 <= i < j < |b| ==> b[i].service != b[j].service
  {
    var b := GroupedByService(gs);
    var order := KeyOrder(gs, Blank, ServiceOf);
    KeyOrderDistinct(gs, Blank, ServiceOf);
    assert forall i :: 0 <= i < |b| ==> b[i].service == order[i];
  }

  /** Every non-blank group's row is in the bucket of its service. */
  lemma GroupedByServiceComplete(gs: seq<Group>, k: nat)
    requires k < |gs| && !Blank(gs[k])
    ensures var b := GroupedByService(gs);
      exists i :: 0 <= i < |b| && b[i].service == ServiceOf(gs[k]) && RowOf(gs[k]) in b[i].rows
  {
    var b := GroupedByService(gs);
    var order := KeyOrder(gs, Blank, ServiceOf);
    var s := ServiceOf(gs[k]);
    KeyOrderMembers(gs, Blank, ServiceOf, s);
    var i :| 0 <= i < |order| && order[i] == s;
    KeyBucketHolds(gs, Blank, ServiceOf, RowOf, k);
    assert b[i].service == s && RowOf(gs[k]) in b[i].rows;
  }

  /** Every bucket row is a non-blank group of that bucket's service. */
  lemma GroupedByServiceSound(gs: seq<Group>, i: nat, j: nat) returns (k: nat)
    requires i < |GroupedByService(gs)| && j < |GroupedByService(gs)[i].rows|
    ensures var b := GroupedByService(gs);
      k < |gs| && !Blank(gs[k]) && ServiceOf(gs[k]) == b[i].service && b[i].rows[j] == RowOf(gs[k])
  {
    var order := KeyOrder(gs, Blank, ServiceOf);
    k := KeyBucketSource(gs, Blank, ServiceOf, RowOf, order[i], j);
  }

  datatype RateColor = Red | Amber | Green

  /** The badge and bar colour of an error rate: above 5 red, above 3 amber, else green. */
  function RateColorOf(errorRate: real): (c: RateColor)
    ensures c == Red <==> errorRate > 5.0
    ensures c == Amber <==> 3.0 < errorRate <= 5.0
    ensures c == Green <==> errorRate <= 3.0
  {
    if errorRate > 5.0 then Red else if errorRate > 3.0 then Amber else Green
  }

  function Severity(c: RateColor): nat {
    match c
    case Green => 0
    case Amber => 1
    case Red => 2
  }

  /** A higher error rate never shows a milder colour. */
  lemma RateColorMonotone(a: real, b: real)
    requires a <= b
    ensures Severity(RateColorOf(a)) <= Severity(RateColorOf(b))
  {
  }
}
