/** Users counted device by device are as many as devices counted client by client. */
module Conservation {
  import opened Collections
  import opened Manager
  import opened Safety
  import opened MainLoop
  import opened WellBehaved
  import opened Relation

  /** The user counts that print_device_status walks, added up over the devices `ds`. */
  function TotalUsers(l: Links, ds: seq<Name>): nat
    requires forall n :: n in ds ==> n in l.users
  {
    if ds == [] then 0
    else
      assert ds[0] in ds;
      |l.users[ds[0]]| + TotalUsers(l, ds[1..])
  }

  /** The lengths of the clients' device lists, added up over the clients `cs`. */
  function TotalWants(l: Links, cs: seq<Addr>): nat
    requires forall a :: a in cs ==> a in l.wants
  {
    if cs == [] then 0
    else
      var a := cs[0];
      assert a in cs;
      |l.wants[a]| + TotalWants(l, cs[1..])
  }

  ghost function Column(us: seq<Addr>, n: Name): set<(Addr, Name)> {
    set a | a in us :: (a, n)
  }

  ghost function Row(a: Addr, ws: seq<Name>): set<(Addr, Name)> {
    set n | n in ws :: (a, n)
  }

  lemma {:induction false} ColumnSize(us: seq<Addr>, n: Name)
    requires NoDup(us)
    ensures |Column(us, n)| == |us|
  {
    if us == [] {
    } else {
      ColumnSize(us[1..], n);
      assert Column(us, n) == {(us[0], n)} + Column(us[1..], n) by {
        assert forall a :: a in us <==> a == us[0] || a in us[1..];
      }
      assert (us[0], n) !in Column(us[1..], n);
    }
  }

  lemma {:induction false} RowSize(a: Addr, ws: seq<Name>)
    requires NoDup(ws)
    ensures |Row(a, ws)| == |ws|
  {
    if ws == [] {
    } else {
      RowSize(a, ws[1..]);
      assert Row(a, ws) == {(a, ws[0])} + Row(a, ws[1..]) by {
        assert forall n :: n in ws <==> n == ws[0] || n in ws[1..];
      }
      assert (a, ws[0]) !in Row(a, ws[1..]);
    }
  }

  ghost function UserPairs(l: Links, ds: seq<Name>): set<(Addr, Name)>
    requires forall n :: n in ds ==> n in l.users
  {
    set n, a | n in ds && a in l.users[n] :: (a, n)
  }

  ghost function WantPairs(l: Links, cs: seq<Addr>): set<(Addr, Name)>
    requires forall a :: a in cs ==> a in l.wants
  {
    set a, n | a in cs && n in l.wants[a] :: (a, n)
  }

  lemma {:induction false} UserPairsSize(l: Links, ds: seq<Name>)
    requires (forall n :: n in ds ==> n in l.users && NoDup(l.users[n])) && NoDup(ds)
    ensures |UserPairs(l, ds)| == TotalUsers(l, ds)
  {
    if ds == [] {
      assert UserPairs(l, ds) == {};
    } else {
      var (n, rest) := (ds[0], ds[1..]);
      assert n in ds && forall m :: m in ds <==> m == n || m in rest;
      UserPairsSize(l, rest);
      ColumnSize(l.users[n], n);
      assert UserPairs(l, ds) == Column(l.users[n], n) + UserPairs(l, rest);
      assert Column(l.users[n], n) !! UserPairs(l, rest);
    }
  }

  lemma {:induction false} WantPairsSize(l: Links, cs: seq<Addr>)
    requires (forall a :: a in cs ==> a in l.wants && NoDup(l.wants[a])) && NoDup(cs)
    ensures |WantPairs(l, cs)| == TotalWants(l, cs)
  {
    if cs == [] {
      assert WantPairs(l, cs) == {};
    } else {
      var (a, rest) := (cs[0], cs[1..]);
      assert a in cs && forall b :: b in cs <==> b == a || b in rest;
      WantPairsSize(l, rest);
      RowSize(a, l.wants[a]);
      assert WantPairs(l, cs) == Row(a, l.wants[a]) + WantPairs(l, rest);
      assert Row(a, l.wants[a]) !! WantPairs(l, rest);
    }
  }

  lemma OnePairSet(l: Links)
    requires Consistent(l) && Linked(l) && Mirror(l)
    ensures UserPairs(l, l.devs) == WantPairs(l, l.clis)
    ensures TotalUsers(l, l.devs) == TotalWants(l, l.clis)
  {
    UserPairsSize(l, l.devs);
    WantPairsSize(l, l.clis);
  }

  /** On every well-behaved run the sum of the devices' user counts is the sum of the lengths of
      the clients' device lists. */
  lemma UsersConserved(names: seq<Name>, e: Env, inputs: seq<Input>)
    requires WellBehavedEnv(e)
    ensures var l := Run(Boot(names), e, inputs).links;
      && (forall n :: n in l.devs ==> n in l.users) && (forall a :: a in l.clis ==> a in l.wants)
      && TotalUsers(l, l.devs) == TotalWants(l, l.clis)
  {
    RunGood(names, e, inputs);
    OnePairSet(Run(Boot(names), e, inputs).links);
  }
}
