/** DisplayablePorts: the Ports column of the pre-1.5 container list, one "private/type" or
    "ip:public->private/type" string per port, in the order of the table sorted on its
    PublicPort key, joined with ", ". */
module ApiCommon {
  import opened Wrappers
  import opened GoStrings

  /** A row of the ports table. */
  datatype Port = Port(ip: string, privatePort: int, publicPort: int, proto: string)

  // ---- the sort on the PublicPort key ----

  /** The table's order on its key: the stored values are PublicPort numbers, which parse back
      as integers, so two rows compare as numbers. */
  predicate KeyLe(p: Port, q: Port)
  {
    p.publicPort <= q.publicPort
  }

  /** Neighbouring rows are in key order. */
  predicate Sorted(s: seq<Port>)
  {
    forall i :: 0 < i < |s| ==> KeyLe(s[i - 1], s[i])
  }

  /** A sorted table is in key order between any two rows. */
  lemma {:induction false} SortedAllPairs(s: seq<Port>, i: nat, j: nat)
    requires Sorted(s) && i <= j < |s|
    ensures KeyLe(s[i], s[j])
    decreases j - i
  {
    if i < j {
      SortedAllPairs(s, i, j - 1);
    }
  }

  /** Insert a row before the first row whose key is not below its own. */
  function Insert(p: Port, s: seq<Port>): seq<Port>
  {
    if s == [] then [p]
    else if KeyLe(p, s[0]) then [p] + s
    else [s[0]] + Insert(p, s[1..])
  }

  lemma {:induction false} InsertSorted(p: Port, s: seq<Port>)
    requires Sorted(s)
    ensures Sorted(Insert(p, s))
    ensures multiset(Insert(p, s)) == multiset(s) + multiset{p}
    ensures Insert(p, s)[0] == p || Insert(p, s)[0] == s[0]
  {
    if s != [] && !KeyLe(p, s[0]) {
      var t := s[1..];
      assert Sorted(t) by {
        forall i | 0 < i < |t| ensures KeyLe(t[i - 1], t[i]) {
          assert t[i - 1] == s[i] && t[i] == s[i + 1];
        }
      }
      InsertSorted(p, t);
      var r := Insert(p, t);
      assert Insert(p, s) == [s[0]] + r;
      assert KeyLe(s[0], r[0]);
      assert s == [s[0]] + t;
    }
  }

  /** The table's Sort: a permutation of the rows in key order. */
  method SortByPublicPort(ports: seq<Port>) returns (sorted: seq<Port>)
    ensures Sorted(sorted) && multiset(sorted) == multiset(ports)
  {
    sorted := [];
    for i := 0 to |ports|
      invariant Sorted(sorted) && multiset(sorted) == multiset(ports[..i])
    {
      InsertSorted(ports[i], sorted);
      sorted := Insert(ports[i], sorted);
      assert ports[..i + 1] == ports[..i] + [ports[i]];
    }
    assert ports[..|ports|] == ports;
  }

  // ---- the rendering ----

  /** One port: "private/type" without an IP, "ip:public->private/type" with one. */
  function Render(p: Port): string
  {
    if p.ip == "" then FormatInt(p.privatePort) + "/" + p.proto
    else p.ip + ":" + FormatInt(p.publicPort) + "->" + FormatInt(p.privatePort) + "/" + p.proto
  }

  function Renders(ports: seq<Port>): (r: seq<string>)
    ensures |r| == |ports| && forall i :: 0 <= i < |ports| ==> r[i] == Render(ports[i])
  {
    if ports == [] then [] else Renders(ports[..|ports| - 1]) + [Render(ports[|ports| - 1])]
  }

  lemma NoSlashInNumber(n: int)
    ensures '/' !in FormatInt(n)
  {
    var d := NatToString(if n < 0 then -n else n);
    assert '/' !in d by {
      forall k | 0 <= k < |d| ensures d[k] != '/' {
        assert IsDigit(d[k]);
      }
    }
    if n < 0 {
      assert FormatInt(n) == "-" + d;
    }
  }

  /** A port without an IP renders as text that splits at its first '/' into the private port,
      which reads back as the number, and the protocol. */
  lemma PrivateOnlyRoundTrip(p: Port)
    requires p.ip == "" && MinInt64 <= p.privatePort <= MaxInt64
    ensures var parts := SplitN2(Render(p), '/');
      parts == [FormatInt(p.privatePort), p.proto] && Atoi(parts[0]) == Success(p.privatePort)
  {
    NoSlashInNumber(p.privatePort);
    SplitN2Join(FormatInt(p.privatePort), '/', p.proto);
    AtoiFormatInt(p.privatePort);
  }

  /** A port with an IP free of ':' renders as text whose part before the first ':' is the IP,
      and whose rest holds the public and private ports. */
  lemma MappedRoundTrip(p: Port)
    requires p.ip != "" && ':' !in p.ip
    ensures SplitN2(Render(p), ':') ==
      [p.ip, FormatInt(p.publicPort) + "->" + FormatInt(p.privatePort) + "/" + p.proto]
  {
    var rest := FormatInt(p.publicPort) + "->" + FormatInt(p.privatePort) + "/" + p.proto;
    assert Render(p) == p.ip + [':'] + rest;
    SplitN2Join(p.ip, ':', rest);
  }

  /** The Ports column. The table is left sorted, as its Sort works in place. */
  method DisplayablePorts(ports: seq<Port>) returns (sorted: seq<Port>, r: string)
    ensures Sorted(sorted) && multiset(sorted) == multiset(ports)
    ensures r == Join(Renders(sorted), ", ")
  {
    var result: seq<string> := [];
    sorted := SortByPublicPort(ports);
    for i := 0 to |sorted|
      invariant result == Renders(sorted[..i])
    {
      assert sorted[..i + 1][..i] == sorted[..i];
      var port := sorted[i];
      if port.ip == "" {
        result := result + [FormatInt(port.privatePort) + "/" + port.proto];
      } else {
        result := result + [port.ip + ":" + FormatInt(port.publicPort) + "->" + FormatInt(port.privatePort) + "/" + port.proto];
      }
    }
    assert sorted[..|sorted|] == sorted;
    r := Join(result, ", ");
  }

  /** An empty table shows as "", a table of one port as that port's text, and a longer one
      as the first sorted port's text, ", ", and the rest. */
  lemma DisplayForms(sorted: seq<Port>)
    ensures sorted == [] ==> Join(Renders(sorted), ", ") == ""
    ensures |sorted| == 1 ==> Join(Renders(sorted), ", ") == Render(sorted[0])
    ensures |sorted| > 1 ==>
      Join(Renders(sorted), ", ") == Render(sorted[0]) + ", " + Join(Renders(sorted[1..]), ", ")
  {
    if |sorted| > 1 {
      var rs := Renders(sorted);
      assert rs[1..] == Renders(sorted[1..]);
    }
  }
}
