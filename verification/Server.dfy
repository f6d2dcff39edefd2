/** The server's objects and the methods that update them, each proved against the operation of
    the model that it carries out. */
module Server {
  import opened Collections
  import opened LinkedLists
  import opened Manager
  import opened Safety
  import opened MainLoop
  import opened Text
  import opened Wire

  /** device_t, without the fields that nothing updates. */
  class LinkDevice {
    const name: Name
    var status: Status
    var since: int
    var retries: int
    const clients: LinkedList<LinkClient>

    constructor (name: Name)
      ensures this.name == name && status == DOWN && since == 0 && retries == 0
      ensures fresh(clients) && clients.Valid() && clients.contents == [] && clients.Repr == {clients}
    {
      this.name, status, since, retries := name, DOWN, 0, 0;
      clients := new LinkedList<LinkClient>();
    }
  }

  /** client_t. */
  class LinkClient {
    const addr: Addr
    var port: int
    var heard: int
    const devices: LinkedList<LinkDevice>

    constructor (addr: Addr)
      ensures this.addr == addr && heard == 0
      ensures fresh(devices) && devices.Valid() && devices.contents == [] && devices.Repr == {devices}
    {
      this.addr, port, heard := addr, 0, 0;
      devices := new LinkedList<LinkDevice>();
    }
  }

  /** The list holds, in order, the objects that `obj` keeps under the keys `keys`. */
  ghost predicate Refs<K, T>(list: seq<T>, keys: seq<K>, obj: map<K, T>) {
    |list| == |keys| && forall i :: 0 <= i < |keys| ==> keys[i] in obj && list[i] == obj[keys[i]]
  }

  /** The entries equal to `x` are those under the key `k`. */
  ghost predicate Keys<K, T>(list: seq<T>, keys: seq<K>, x: T, k: K) {
    |list| == |keys| && forall i :: 0 <= i < |keys| ==> (list[i] == x <==> keys[i] == k)
  }

  lemma RefsNone<K, T>(obj: map<K, T>)
    ensures Refs([], [], obj)
  {
  }

  lemma RefsAppend<K, T>(list: seq<T>, keys: seq<K>, obj: map<K, T>, k: K)
    requires Refs(list, keys, obj) && k in obj
    ensures Refs(list + [obj[k]], keys + [k], obj)
  {
  }

  lemma KeysOf<K, T>(list: seq<T>, keys: seq<K>, obj: map<K, T>, x: T, k: K)
    requires Refs(list, keys, obj) && k in obj && obj[k] == x && forall j :: j in obj && obj[j] == x ==> j == k
    ensures Keys(list, keys, x, k)
  {
  }

  lemma KeysIn<K, T>(list: seq<T>, keys: seq<K>, x: T, k: K)
    requires Keys(list, keys, x, k)
    ensures x in list <==> k in keys
  {
    if k in keys {
      var i :| 0 <= i < |keys| && keys[i] == k;
      assert list[i] == x;
    }
  }

  lemma {:induction false} RefsWithout<K, T>(list: seq<T>, keys: seq<K>, obj: map<K, T>, x: T, k: K)
    requires Refs(list, keys, obj) && Keys(list, keys, x, k)
    ensures Refs(Without(list, x), Without(keys, k), obj)
  {
    if list == [] || list[0] == x {
    } else {
      RefsWithout(list[1..], keys[1..], obj, x, k);
    }
  }

  class LinkServer {
    const env: Env
    /** g_devices and g_clients. */
    const deviceList: LinkedList<LinkDevice>
    const clientList: LinkedList<LinkClient>
    /** How many shell commands have run. */
    var ran: nat

    ghost var model: State
    ghost var dobj: map<Name, LinkDevice>
    ghost var cobj: map<Addr, LinkClient>
    /** What the lists of clients and the lists of devices hold, and their cells and nodes. */
    ghost var cpool: map<LinkedList<LinkClient>, Chain<LinkClient>>
    ghost var dpool: map<LinkedList<LinkDevice>, Chain<LinkDevice>>
    ghost var cfoot: set<object>
    ghost var dfoot: set<object>

    /** Each object has a list of its own. */
    ghost predicate Celled(dobj: map<Name, LinkDevice>, cobj: map<Addr, LinkClient>,
                           ccells: set<LinkedList<LinkClient>>, dcells: set<LinkedList<LinkDevice>>)
    {
      && deviceList in dcells && clientList in ccells
      && (forall n :: n in dobj ==> dobj[n].name == n && dobj[n].clients in ccells && dobj[n].clients != clientList)
      && (forall a :: a in cobj ==> cobj[a].addr == a && cobj[a].devices in dcells && cobj[a].devices != deviceList)
      && (forall n, m :: n in dobj && m in dobj && n != m ==> dobj[n].clients != dobj[m].clients)
      && (forall a, b :: a in cobj && b in cobj && a != b ==> cobj[a].devices != cobj[b].devices)
    }

    /** The cells and nodes are neither the server's other objects nor, if they hold clients, those
        that hold devices. */
    ghost predicate Parted(dobj: map<Name, LinkDevice>, cobj: map<Addr, LinkClient>, cfoot: set<object>,
                           dfoot: set<object>)
    {
      && this !in cfoot && this !in dfoot && cfoot !! dfoot
      && cfoot !! dobj.Values && dfoot !! dobj.Values && cfoot !! cobj.Values && dfoot !! cobj.Values
    }

    /** The linked lists in the heap: no two of them share a cell or a node. */
    ghost predicate Wired()
      reads `dobj, `cobj, `cpool, `dpool, `cfoot, `dfoot, cpool.Keys, dpool.Keys, cfoot, dfoot
    {
      && Celled(dobj, cobj, cpool.Keys, dpool.Keys) && Parted(dobj, cobj, cfoot, dfoot)
      && Pool(cpool, cfoot) && Pool(dpool, dfoot)
    }

    /** The records are what the model says. */
    ghost predicate Records(dev: map<Name, Device>, heard: map<Addr, int>, dobj: map<Name, LinkDevice>,
                            cobj: map<Addr, LinkClient>)
      reads dobj.Values, cobj.Values
    {
      && dobj.Keys == dev.Keys && cobj.Keys == heard.Keys
      && (forall n :: n in dobj ==> Device(dobj[n].status, dobj[n].since, dobj[n].retries) == dev[n])
      && (forall a :: a in cobj ==> cobj[a].heard == heard[a])
    }

    /** The lists hold the objects that the model names, in its order. */
    ghost predicate Entries(l: Links, dobj: map<Name, LinkDevice>, cobj: map<Addr, LinkClient>,
                            cpool: map<LinkedList<LinkClient>, Chain<LinkClient>>,
                            dpool: map<LinkedList<LinkDevice>, Chain<LinkDevice>>)
    {
      && dobj.Keys == l.users.Keys && cobj.Keys == l.wants.Keys
      && Refs(Items(dpool, deviceList), l.devs, dobj)
      && Refs(Items(cpool, clientList), l.clis, cobj)
      && (forall n :: n in dobj ==> Refs(Items(cpool, dobj[n].clients), l.users[n], cobj))
      && (forall a :: a in cobj ==> Refs(Items(dpool, cobj[a].devices), l.wants[a], dobj))
    }

    /** The objects are what the model says. */
    ghost predicate Modelled()
      reads this, dobj.Values, cobj.Values
    {
      && ran == model.ran
      && Records(model.dev, model.heard, dobj, cobj)
      && Entries(model.links, dobj, cobj, cpool, dpool)
    }

    ghost predicate Valid()
      reads this, dobj.Values, cobj.Values, cpool.Keys, dpool.Keys, cfoot, dfoot
    {
      Wired() && Modelled()
    }

    ghost predicate Mine(d: LinkDevice)
      reads this
    {
      d.name in dobj && dobj[d.name] == d
    }

    ghost predicate Ours(c: LinkClient)
      reads this
    {
      c.addr in cobj && cobj[c.addr] == c
    }

    /** The lists have got no cells or nodes but new ones. */
    twostate predicate Grown()
      reads this
    {
      fresh(cfoot - old(cfoot)) && fresh(dfoot - old(dfoot))
    }

    /** The same objects in the same global lists, on the same nodes. */
    twostate predicate Kept()
      reads this
    {
      && dobj == old(dobj) && cobj == old(cobj)
      && Items(dpool, deviceList) == old(Items(dpool, deviceList))
      && Nodes(dpool, deviceList) == old(Nodes(dpool, deviceList))
      && Items(cpool, clientList) == old(Items(cpool, clientList))
      && Nodes(cpool, clientList) == old(Nodes(cpool, clientList))
    }

    /** And no new nodes at all. */
    twostate predicate Same()
      reads this
    {
      Kept() && cfoot == old(cfoot) && dfoot == old(dfoot)
    }

    /** Names and addresses tell the objects apart, and so do their lists. */
    lemma Named()
      requires Wired()
      ensures forall n :: n in dobj ==> dobj[n].name == n && dobj[n].clients in cpool
      ensures forall a :: a in cobj ==> cobj[a].addr == a && cobj[a].devices in dpool
      ensures deviceList in dpool && clientList in cpool
    {
    }

    /** No object is a cell or a node. */
    lemma Outside()
      requires Wired()
      ensures this !in cfoot && this !in dfoot
      ensures forall d :: d in dobj.Values ==> d !in cfoot && d !in dfoot
      ensures forall c :: c in cobj.Values ==> c !in cfoot && c !in dfoot
    {
    }

    /** A device's list of clients is neither another device's nor g_clients. */
    lemma OwnUsers(d: LinkDevice)
      requires Wired() && Mine(d)
      ensures d.clients in cpool && d.clients != clientList
      ensures forall n :: n in dobj && n != d.name ==> dobj[n].clients != d.clients
    {
    }

    lemma OwnWants(c: LinkClient)
      requires Wired() && Ours(c)
      ensures c.devices in dpool && c.devices != deviceList
      ensures forall a :: a in cobj && a != c.addr ==> cobj[a].devices != c.devices
    {
    }

    /** All lists are acyclic, and no two of them share a cell or a node. */
    lemma Disjoint()
      requires Valid()
      ensures deviceList.Valid() && clientList.Valid() && deviceList.Repr !! clientList.Repr
      ensures forall n :: n in dobj ==>
                && dobj[n].clients.Valid() && dobj[n].clients.Repr !! clientList.Repr
                && dobj[n].clients.Repr !! deviceList.Repr
      ensures forall a :: a in cobj ==>
                && cobj[a].devices.Valid() && cobj[a].devices.Repr !! deviceList.Repr
                && cobj[a].devices.Repr !! clientList.Repr
      ensures forall n, m :: n in dobj && m in dobj && n != m ==> dobj[n].clients.Repr !! dobj[m].clients.Repr
      ensures forall a, b :: a in cobj && b in cobj && a != b ==> cobj[a].devices.Repr !! cobj[b].devices.Repr
      ensures forall n, a :: n in dobj && a in cobj ==> dobj[n].clients.Repr !! cobj[a].devices.Repr
    {
      hide Modelled;
    }

    lemma UserKeys(c: LinkClient, d: LinkDevice)
      requires Valid() && Mine(d) && Ours(c)
      ensures d.name in model.links.users
      ensures Refs(Items(cpool, d.clients), model.links.users[d.name], cobj)
      ensures Keys(Items(cpool, d.clients), model.links.users[d.name], c, c.addr)
      ensures c in Items(cpool, d.clients) <==> c.addr in model.links.users[d.name]
      ensures (exists y :: y in Items(cpool, d.clients) && y.addr == c.addr) <==> c in Items(cpool, d.clients)
    {
      hide Wired;
      Named();
      forall b | b in cobj && cobj[b] == c ensures b == c.addr {
        assert cobj[b].addr == b;
      }
      KeysOf(Items(cpool, d.clients), model.links.users[d.name], cobj, c, c.addr);
      KeysIn(Items(cpool, d.clients), model.links.users[d.name], c, c.addr);
    }

    lemma WantKeys(c: LinkClient, d: LinkDevice)
      requires Valid() && Mine(d) && Ours(c)
      ensures c.addr in model.links.wants
      ensures Refs(Items(dpool, c.devices), model.links.wants[c.addr], dobj)
      ensures Keys(Items(dpool, c.devices), model.links.wants[c.addr], d, d.name)
      ensures d in Items(dpool, c.devices) <==> d.name in model.links.wants[c.addr]
      ensures (exists y :: y in Items(dpool, c.devices) && y.name == d.name) <==> d in Items(dpool, c.devices)
    {
      hide Wired;
      Named();
      KeysOf(Items(dpool, c.devices), model.links.wants[c.addr], dobj, d, d.name);
      KeysIn(Items(dpool, c.devices), model.links.wants[c.addr], d, d.name);
    }

    /** The server before its configuration is read. */
    constructor (env: Env)
      ensures Valid() && model == Blank() && this.env == env && dobj == map[] && cobj == map[]
      ensures fresh(cfoot) && fresh(dfoot)
    {
      hide Wired, Modelled, Blank, Pool;
      var g_devices := new LinkedList<LinkDevice>();
      var g_clients := new LinkedList<LinkClient>();
      this.env, ran, deviceList, clientList := env, 0, g_devices, g_clients;
      model, dobj, cobj := Blank(), map[], map[];
      cpool, dpool := map[g_clients := Chain([], [])], map[g_devices := Chain([], [])];
      cfoot, dfoot := {g_clients}, {g_devices};
      NewPool(g_devices);
      NewPool(g_clients);
      new;
      AtFirst();
    }

    lemma AtFirst()
      requires dobj == map[] && cobj == map[] && model == Blank() && ran == 0
      requires cpool == map[clientList := Chain([], [])] && dpool == map[deviceList := Chain([], [])]
      requires cfoot == {clientList} && dfoot == {deviceList} && Pool(cpool, cfoot) && Pool(dpool, dfoot)
      ensures Valid()
    {
      hide Pool;
      assert cpool.Keys == {clientList} && dpool.Keys == {deviceList};
    }

    // ---------- The lists in the heap ----------

    /** add_client on some list. */
    method GrowClients(l: LinkedList<LinkClient>, c: LinkClient) returns (ok: bool, ghost nodes: seq<Node<LinkClient>>)
      requires Wired() && l in cpool
      modifies `cfoot, `cpool, cfoot
      ensures Wired() && Grown()
      ensures ok <==> forall y :: y in old(cpool)[l].items ==> y.addr != c.addr
      ensures cpool == old(cpool)[l := Chain(if ok then old(cpool)[l].items + [c] else old(cpool)[l].items, nodes)]
    {
      hide Pool, Celled;
      InFoot(dpool, dfoot);
      ok, nodes, cpool, cfoot := AddIn(l, c, (y: LinkClient) => y.addr == c.addr, cpool, cfoot);
      SameKeys(old(cpool), l, cpool[l]);
    }

    /** add_device on some list. */
    method GrowDevices(l: LinkedList<LinkDevice>, d: LinkDevice)
      returns (ok: bool, ghost nodes: seq<Node<LinkDevice>>)
      requires Wired() && l in dpool
      modifies `dfoot, `dpool, dfoot
      ensures Wired() && Grown()
      ensures ok <==> forall y :: y in old(dpool)[l].items ==> y.name != d.name
      ensures dpool == old(dpool)[l := Chain(if ok then old(dpool)[l].items + [d] else old(dpool)[l].items, nodes)]
    {
      hide Pool, Celled;
      InFoot(cpool, cfoot);
      ok, nodes, dpool, dfoot := AddIn(l, d, (y: LinkDevice) => y.name == d.name, dpool, dfoot);
      SameKeys(old(dpool), l, dpool[l]);
    }

    /** rm_client on some list. */
    method CutClients(l: LinkedList<LinkClient>, c: LinkClient)
      returns (ok: bool, ghost at: nat, ghost nodes: seq<Node<LinkClient>>)
      requires Wired() && l in cpool
      modifies `cpool, cfoot
      ensures Wired()
      ensures ok <==> c in old(cpool)[l].items
      ensures cpool == old(cpool)[l := Chain(Without(old(cpool)[l].items, c), nodes)]
      ensures ok ==> Unlinks(old(cpool)[l], c, at, nodes)
    {
      hide Pool, Celled;
      InFoot(dpool, dfoot);
      ok, at, nodes, cpool := RemoveIn(l, c, cpool, cfoot);
      assert cpool.Keys == old(cpool).Keys;
    }

    /** rm_device on some list. */
    method CutDevices(l: LinkedList<LinkDevice>, d: LinkDevice)
      returns (ok: bool, ghost at: nat, ghost nodes: seq<Node<LinkDevice>>)
      requires Wired() && l in dpool
      modifies `dpool, dfoot
      ensures Wired()
      ensures ok <==> d in old(dpool)[l].items
      ensures dpool == old(dpool)[l := Chain(Without(old(dpool)[l].items, d), nodes)]
      ensures ok ==> Unlinks(old(dpool)[l], d, at, nodes)
    {
      hide Pool, Celled;
      InFoot(cpool, cfoot);
      ok, at, nodes, dpool := RemoveIn(l, d, dpool, dfoot);
      assert dpool.Keys == old(dpool).Keys;
    }

    /** The loop of remove_all_clients_from_device. */
    method ClearClients(l: LinkedList<LinkClient>)
      requires Wired() && l in cpool
      modifies `cpool, cfoot
      ensures Wired() && cpool == old(cpool)[l := Chain([], [])]
    {
      hide Pool, Celled;
      InFoot(dpool, dfoot);
      ghost var freed;
      freed, cpool := ClearIn(l, cpool, cfoot);
      assert cpool.Keys == old(cpool).Keys;
    }

    // ---------- Single updates ----------

    method SetRetries(d: LinkDevice, k: int)
      requires Valid() && Mine(d)
      modifies `model, d`retries
      ensures Valid() && Same() && model == Manager.SetRetries(old(model), d.name, k)
    {
      hide Entries, Wired;
      Outside();
      Named();
      d.retries := k;
      model := Manager.SetRetries(model, d.name, k);
    }

    method Stamp(d: LinkDevice, now: int)
      requires Valid() && Mine(d)
      modifies `model, d`since
      ensures Valid() && Same() && model == Manager.Stamp(old(model), d.name, now)
    {
      hide Entries, Wired;
      Outside();
      Named();
      d.since := now;
      model := Manager.Stamp(model, d.name, now);
    }

    method Move(d: LinkDevice, to: Status)
      requires Valid() && Mine(d)
      modifies `model, d`status
      ensures Valid() && Same() && model == Manager.Move(old(model), d.name, to)
    {
      hide Entries, Wired;
      Outside();
      Named();
      d.status := to;
      model := Manager.Move(model, d.name, to);
    }

    lemma UsersNow(l: Links, pool: map<LinkedList<LinkClient>, Chain<LinkClient>>, d: LinkDevice, users: seq<Addr>,
                   chain: Chain<LinkClient>)
      requires Celled(dobj, cobj, pool.Keys, dpool.Keys) && Mine(d)
      requires Entries(l, dobj, cobj, pool, dpool) && Refs(chain.items, users, cobj)
      ensures Entries(l.(users := l.users[d.name := users]), dobj, cobj, pool[d.clients := chain], dpool)
    {
      hide Refs;
    }

    lemma WantsNow(l: Links, pool: map<LinkedList<LinkDevice>, Chain<LinkDevice>>, c: LinkClient, wants: seq<Name>,
                   chain: Chain<LinkDevice>)
      requires Celled(dobj, cobj, cpool.Keys, pool.Keys) && Ours(c)
      requires Entries(l, dobj, cobj, cpool, pool) && Refs(chain.items, wants, dobj)
      ensures Entries(l.(wants := l.wants[c.addr := wants]), dobj, cobj, cpool, pool[c.devices := chain])
    {
      hide Refs;
    }

    lemma HasCells()
      requires Wired()
      ensures Celled(dobj, cobj, cpool.Keys, dpool.Keys)
    {
    }

    /** add_client on the device's list. */
    method AddUser(c: LinkClient, d: LinkDevice)
      requires Valid() && Mine(d) && Ours(c)
      modifies `model, `cpool, `cfoot, cfoot
      ensures Valid() && Kept() && Grown()
      ensures model == old(model).(links := Manager.AddUser(old(model.links), c.addr, d.name))
    {
      hide Entries, Refs, Keys, Wired, Records, Celled;
      UserKeys(c, d);
      ghost var (pool, l, users) := (cpool, model.links, model.links.users[d.name]);
      RefsAppend(Items(cpool, d.clients), users, cobj, c.addr);
      Outside();
      OwnUsers(d);
      HasCells();
      var ok, nodes := GrowClients(d.clients, c);
      UsersNow(l, pool, d, AddTo(users, c.addr), cpool[d.clients]);
      model := model.(links := Manager.AddUser(model.links, c.addr, d.name));
    }

    /** add_device on the client's list. */
    method AddWant(c: LinkClient, d: LinkDevice)
      requires Valid() && Mine(d) && Ours(c)
      modifies `model, `dpool, `dfoot, dfoot
      ensures Valid() && Kept() && Grown()
      ensures model == old(model).(links := Manager.AddWant(old(model.links), c.addr, d.name))
    {
      hide Entries, Refs, Keys, Wired, Records, Celled;
      WantKeys(c, d);
      ghost var (pool, l, wants) := (dpool, model.links, model.links.wants[c.addr]);
      RefsAppend(Items(dpool, c.devices), wants, dobj, d.name);
      Outside();
      OwnWants(c);
      HasCells();
      var ok, nodes := GrowDevices(c.devices, d);
      WantsNow(l, pool, c, AddTo(wants, d.name), dpool[c.devices]);
      model := model.(links := Manager.AddWant(model.links, c.addr, d.name));
    }

    /** rm_client on the device's list; false is -1 with ENODEV. */
    method RemoveUser(c: LinkClient, d: LinkDevice) returns (ok: bool)
      requires Valid() && Mine(d) && Ours(c)
      modifies `model, `cpool, cfoot
      ensures Valid() && Same()
      ensures ok <==> c.addr in old(model.links.users[d.name])
      ensures model == old(model).(links := DropUser(old(model.links), c.addr, d.name))
    {
      hide Entries, Refs, Keys, Wired, Records, Celled, Without;
      UserKeys(c, d);
      ghost var (pool, l, users) := (cpool, model.links, model.links.users[d.name]);
      RefsWithout(Items(cpool, d.clients), users, cobj, c, c.addr);
      Outside();
      OwnUsers(d);
      HasCells();
      ghost var at, nodes;
      ok, at, nodes := CutClients(d.clients, c);
      UsersNow(l, pool, d, Without(users, c.addr), cpool[d.clients]);
      model := model.(links := DropUser(model.links, c.addr, d.name));
    }

    /** rm_device on the client's list. */
    method RemoveWant(c: LinkClient, d: LinkDevice) returns (ok: bool)
      requires Valid() && Mine(d) && Ours(c)
      modifies `model, `dpool, dfoot
      ensures Valid() && Same()
      ensures ok <==> d.name in old(model.links.wants[c.addr])
      ensures model == old(model).(links := DropWant(old(model.links), c.addr, d.name))
    {
      hide Entries, Refs, Keys, Wired, Records, Celled, Without;
      WantKeys(c, d);
      ghost var (pool, l, wants) := (dpool, model.links, model.links.wants[c.addr]);
      RefsWithout(Items(dpool, c.devices), wants, dobj, d, d.name);
      Outside();
      OwnWants(c);
      HasCells();
      ghost var at, nodes;
      ok, at, nodes := CutDevices(c.devices, d);
      WantsNow(l, pool, c, Without(wants, d.name), dpool[c.devices]);
      model := model.(links := DropWant(model.links, c.addr, d.name));
    }

    /** remove_all_clients_from_device. */
    method RemoveAllUsers(d: LinkDevice)
      requires Valid() && Mine(d)
      modifies `model, `cpool, cfoot
      ensures Valid() && Same()
      ensures model == old(model).(links := ClearUsers(old(model.links), d.name))
    {
      hide Entries, Refs, Wired, Records, Celled;
      ghost var (pool, l) := (cpool, model.links);
      RefsNone(cobj);
      Outside();
      OwnUsers(d);
      HasCells();
      ClearClients(d.clients);
      UsersNow(l, pool, d, [], cpool[d.clients]);
      model := model.(links := ClearUsers(model.links, d.name));
    }

    /** system(): the world answers. */
    method System(d: LinkDevice, cmd: Command) returns (r: Reply)
      requires Valid() && Mine(d)
      modifies `model, `ran
      ensures Valid() && Same() && (model, r) == Exec(old(model), env, d.name, cmd)
    {
      hide Entries, Records, Wired;
      Outside();
      r := env.world(ran, cmd);
      ran := ran + 1;
      model := Exec(model, env, d.name, cmd).0;
    }


    // ---------- Commands and status changes ----------

    /** A walk over g_clients: where it starts, and where it goes from position `i`. */
    lemma ClientNode(i: nat)
      requires Valid() && i <= |Nodes(cpool, clientList)|
      ensures var nodes := Nodes(cpool, clientList);
        && clientList.head == NodeAt(nodes, 0) && |nodes| == |model.links.clis|
        && (i < |nodes| ==>
              && nodes[i].data == Items(cpool, clientList)[i] && nodes[i].next == NodeAt(nodes, i + 1)
              && Ours(nodes[i].data) && nodes[i].data.addr == model.links.clis[i]
              && Present(model, model.links.clis[i]))
    {
      Named();
      WalkAt(clientList, cpool, cfoot, i);
      hide Wired;
      if i < |model.links.clis| {
        var a := model.links.clis[i];
        assert a in cobj && cobj[a].addr == a;
      }
    }

    /** A walk over g_devices. */
    lemma DeviceNode(i: nat)
      requires Valid() && i <= |Nodes(dpool, deviceList)|
      ensures var nodes := Nodes(dpool, deviceList);
        && deviceList.head == NodeAt(nodes, 0) && |nodes| == |model.links.devs|
        && (i < |nodes| ==>
              && nodes[i].data == Items(dpool, deviceList)[i] && nodes[i].next == NodeAt(nodes, i + 1)
              && Mine(nodes[i].data) && nodes[i].data.name == model.links.devs[i]
              && Known(model, model.links.devs[i]))
    {
      Named();
      WalkAt(deviceList, dpool, dfoot, i);
      hide Wired;
    }

    /** A walk over a device's clients. */
    lemma UserNode(d: LinkDevice, i: nat)
      requires Valid() && Mine(d) && i <= |Nodes(cpool, d.clients)|
      ensures var nodes := Nodes(cpool, d.clients);
        && d.clients.head == NodeAt(nodes, 0) && Known(model, d.name) && |nodes| == |model.links.users[d.name]|
        && (i < |nodes| ==> nodes[i].next == NodeAt(nodes, i + 1))
    {
      Named();
      WalkAt(d.clients, cpool, cfoot, i);
      hide Wired;
    }

    /** A walk over a client's devices. */
    lemma WantNode(c: LinkClient, i: nat)
      requires Valid() && Ours(c) && i <= |Nodes(dpool, c.devices)|
      ensures var nodes := Nodes(dpool, c.devices);
        && c.devices.head == NodeAt(nodes, 0) && Present(model, c.addr) && |nodes| == |model.links.wants[c.addr]|
        && (i < |nodes| ==> nodes[i].next == NodeAt(nodes, i + 1) && nodes[i].data.name == model.links.wants[c.addr][i])
    {
      Named();
      WalkAt(c.devices, dpool, dfoot, i);
      hide Wired;
    }

    lemma Counts()
      requires Valid()
      ensures dobj.Keys == model.dev.Keys == model.links.users.Keys
      ensures cobj.Keys == model.heard.Keys == model.links.wants.Keys
    {
    }

    /** remove_device_from_all_clients: walk g_clients. */
    method RemoveWants(d: LinkDevice)
      requires Valid() && Mine(d) && Consistent(model.links)
      modifies `model, `dpool, dfoot
      ensures Valid() && Same()
      ensures model == old(model).(links := ClearWants(old(model.links), d.name))
    {
      hide Valid, Consistent, Items, Nodes, ClearSome;
      ghost var (s, l, n, nodes) := (model, model.links, d.name, Nodes(cpool, clientList));
      ClearNone(l, n);
      ClientNode(0);
      var pos := clientList.head;
      ghost var i := 0;
      while pos != null
        invariant 0 <= i <= |nodes| == |l.clis| && pos == NodeAt(nodes, i) && Valid() && Same()
        invariant model == s.(links := ClearSome(l, l.clis[..i], n))
        decreases |nodes| - i
      {
        ClientNode(i);
        ClearNext(l, n, i);
        var ok := RemoveWant(pos.data, d);
        ClientNode(i);
        pos, i := pos.next, i + 1;
      }
      ClearAll(l, n);
    }

    lemma ClientIs(c: LinkClient)
      requires Valid() && Ours(c)
      ensures Present(model, c.addr) && c.heard == model.heard[c.addr]
    {
      hide Wired;
    }

    lemma DeviceIs(d: LinkDevice)
      requires Valid() && Mine(d)
      ensures Known(model, d.name) && Device(d.status, d.since, d.retries) == model.dev[d.name]
      ensures d.clients.head == null <==> model.links.users[d.name] == []
    {
      UserNode(d, 0);
      hide Wired;
    }

    method LinkUp(d: LinkDevice, now: int) returns (r: Reply)
      requires Valid() && Mine(d)
      modifies this, dobj.Values
      ensures Valid() && Same() && Known(old(model), d.name)
      ensures (model, r) == ExecLink(old(model), env, now, d.name, Command.LinkUp)
    {
      hide Valid, Items, Nodes;
      DeviceIs(d);
      r := System(d, Command.LinkUp);
      if r == Exit(0) {
        Stamp(d, now);
      }
    }

    method LinkDown(d: LinkDevice, now: int) returns (r: Reply)
      requires Valid() && Mine(d)
      modifies this, dobj.Values
      ensures Valid() && Same() && Known(old(model), d.name)
      ensures (model, r) == ExecLink(old(model), env, now, d.name, Command.LinkDown)
    {
      hide Valid, Items, Nodes;
      DeviceIs(d);
      r := System(d, Command.LinkDown);
      if r == Exit(0) {
        Stamp(d, now);
      }
    }

    method LinkForceDown(d: LinkDevice) returns (r: Reply)
      requires Valid() && Mine(d) && Consistent(model.links)
      modifies this, dobj.Values, cobj.Values, cfoot, dfoot
      ensures Valid() && Same() && Consistent(model.links)
      ensures (model, r) == ForceDown(old(model), env, d.name)
    {
      hide Valid, Consistent, Items, Nodes;
      DeviceIs(d);
      r := System(d, Command.LinkForceDown);
      if r == Exit(0) {
        WipeConsistent(model.links, d.name);
        RemoveAllUsers(d);
        RemoveWants(d);
      }
    }

    method ToDown(d: LinkDevice) returns (rc: Rc)
      requires Valid() && Mine(d) && Consistent(model.links)
      modifies this, dobj.Values, cobj.Values, cfoot, dfoot
      ensures Valid() && Same() && Consistent(model.links) && Known(old(model), d.name)
      ensures (model, rc) == Manager.ToDown(old(model), env, d.name)
    {
      hide Valid, Consistent, Items, Nodes;
      DeviceIs(d);
      if d.status != DISCONNECTING {
        var r := LinkForceDown(d);
        if r.Failed? {
          return Err(r.errno);
        }
        DeviceIs(d);
      }
      Move(d, DOWN);
      rc := Ok;
    }

    method ToUp(d: LinkDevice, now: int) returns (rc: Rc)
      requires Valid() && Mine(d) && Consistent(model.links)
      modifies this, dobj.Values
      ensures Valid() && Same() && Consistent(model.links) && Known(old(model), d.name)
      ensures (model, rc) == Manager.ToUp(old(model), now, d.name)
    {
      hide Valid, Consistent, Items, Nodes;
      DeviceIs(d);
      if d.status != CONNECTING {
        return Err(EINVAL);
      }
      Stamp(d, now);
      Move(d, UP);
      rc := Ok;
    }

    method ToDisconnecting(d: LinkDevice, now: int) returns (rc: Rc)
      requires Valid() && Mine(d) && Consistent(model.links)
      modifies this, dobj.Values, cobj.Values, cfoot, dfoot
      ensures Valid() && Same() && Consistent(model.links) && Known(old(model), d.name)
      ensures (model, rc) == Manager.ToDisconnecting(old(model), env, now, d.name)
    {
      hide Valid, Consistent, Items, Nodes;
      DeviceIs(d);
      var (was, r) := (d.status, Exit(0));
      match was {
        case DOWN => return Err(EINVAL);
        case UP => r := LinkDown(d, now);
        case CONNECTING => r := LinkForceDown(d);
        case DISCONNECTING => r := LinkForceDown(d);
      }
      if r.Failed? {
        return Err(r.errno);
      }
      DeviceIs(d);
      Move(d, if was == DISCONNECTING then DOWN else DISCONNECTING);
      rc := Ok;
    }

    /** The cases of a change to CONNECTING fall through: DISCONNECTING, DOWN, CONNECTING. */
    method ToConnecting(d: LinkDevice, now: int) returns (rc: Rc)
      requires Valid() && Mine(d) && Consistent(model.links)
      modifies this, dobj.Values, cobj.Values, cfoot, dfoot
      ensures Valid() && Same() && Consistent(model.links) && Known(old(model), d.name)
      ensures (model, rc) == Manager.ToConnecting(old(model), env, now, d.name)
    {
      hide Valid, Consistent, Manager.ToDown, Items, Nodes;
      DeviceIs(d);
      var was := d.status;
      if was == UP {
        return Err(EINVAL);
      }
      if was == DISCONNECTING {
        var r := LinkForceDown(d);
        if r.Failed? {
          return Err(r.errno);
        }
        DeviceIs(d);
      }
      if was != CONNECTING {
        SetRetries(d, env.retries);
        DeviceIs(d);
      }
      rc := Retry(d, now);
    }

    method Retry(d: LinkDevice, now: int) returns (rc: Rc)
      requires Valid() && Mine(d) && Consistent(model.links)
      modifies this, dobj.Values, cobj.Values, cfoot, dfoot
      ensures Valid() && Same() && Consistent(model.links) && Known(old(model), d.name)
      ensures (model, rc) == Attempt(old(model), env, now, d.name)
    {
      hide Valid, Consistent, Manager.ToDown, Items, Nodes;
      DeviceIs(d);
      var left := d.retries;
      SetRetries(d, left - 1);
      if left < 0 {
        rc := ToDown(d);
        return;
      }
      var r := LinkUp(d, now);
      if r.Failed? {
        return Err(r.errno);
      }
      DeviceIs(d);
      Stamp(d, now);
      Move(d, CONNECTING);
      rc := Ok;
    }

    /** alter_device_status. */
    method AlterDeviceStatus(d: LinkDevice, to: Status, now: int) returns (rc: Rc)
      requires Valid() && Mine(d) && Consistent(model.links)
      modifies this, dobj.Values, cobj.Values, cfoot, dfoot
      ensures Valid() && Same() && Consistent(model.links) && Known(old(model), d.name)
      ensures (model, rc) == Alter(old(model), env, now, d.name, to)
    {
      hide Valid, Consistent, Manager.ToConnecting, Manager.ToDisconnecting, Manager.ToUp, Manager.ToDown, Items, Nodes;
      DeviceIs(d);
      match to {
        case CONNECTING => rc := ToConnecting(d, now);
        case DISCONNECTING => rc := ToDisconnecting(d, now);
        case UP => rc := ToUp(d, now);
        case DOWN => rc := ToDown(d);
      }
    }

    /** Both copies of a pair. */
    method AddPair(c: LinkClient, d: LinkDevice)
      requires Valid() && Mine(d) && Ours(c)
      modifies this, cfoot, dfoot
      ensures Valid() && Kept() && Grown() && Known(old(model), d.name) && Present(old(model), c.addr)
      ensures var l := Manager.AddUser(old(model.links), c.addr, d.name);
        model == old(model).(links := Manager.AddWant(l, c.addr, d.name))
    {
      hide Valid, Items, Nodes;
      DeviceIs(d);
      ClientIs(c);
      AddUser(c, d);
      AddWant(c, d);
    }

    /** connect_client_to_device. */
    method ConnectClientToDevice(c: LinkClient, d: LinkDevice, now: int) returns (rc: Rc)
      requires Valid() && Mine(d) && Ours(c) && Safe(model)
      modifies this, dobj.Values, cobj.Values, cfoot, dfoot
      ensures Valid() && Kept() && Grown() && Safe(model) && Known(old(model), d.name) && Present(old(model), c.addr)
      ensures (model, rc) == Connect(old(model), env, now, c.addr, d.name)
    {
      hide Valid, Consistent, Linked, Alter, Items, Nodes;
      DeviceIs(d);
      ClientIs(c);
      ConnectKeeps(model, env, now, c.addr, d.name);
      if d.clients.head == null {
        SetRetries(d, env.retries);
        rc := AlterDeviceStatus(d, CONNECTING, now);
        if rc.Err? {
          return;
        }
      }
      AddPair(c, d);
      rc := Ok;
    }

    /** disconnect_client_from_device. */
    method DisconnectClientFromDevice(c: LinkClient, d: LinkDevice, now: int) returns (rc: Rc)
      requires Valid() && Mine(d) && Ours(c) && Safe(model)
      modifies this, dobj.Values, cobj.Values, cfoot, dfoot
      ensures Valid() && Same() && Safe(model) && Known(old(model), d.name) && Present(old(model), c.addr)
      ensures (model, rc) == Disconnect(old(model), env, now, c.addr, d.name)
    {
      hide Valid, Consistent, Linked, Alter, DropWant, Without, Items, Nodes;
      DeviceIs(d);
      ClientIs(c);
      DisconnectKeeps(model, env, now, c.addr, d.name);
      DropUserKeeps(model.links, c.addr, d.name);
      var ok := RemoveUser(c, d);
      DeviceIs(d);
      if ok && d.clients.head == null {
        rc := AlterDeviceStatus(d, DISCONNECTING, now);
        if rc.Err? {
          return;
        }
      }
      ok := RemoveWant(c, d);
      rc := Ok;
    }

    /** remove_client_from_all_devices: walk g_devices. */
    method RemoveClientFromAllDevices(c: LinkClient, now: int) returns (rc: Rc)
      requires Valid() && Ours(c) && Safe(model)
      modifies this, dobj.Values, cobj.Values, cfoot, dfoot
      ensures Valid() && Same() && Safe(model)
      ensures Present(old(model), c.addr) && forall n :: n in old(model).links.devs ==> Known(old(model), n)
      ensures (model, rc) == RemoveFromAll(old(model), env, now, c.addr, old(model).links.devs)
    {
      hide Valid, Consistent, Linked, Disconnect, Items, Nodes, Known, Present, NoDup;
      ClientIs(c);
      Devices(model);
      ghost var (s, ds, nodes) := (model, model.links.devs, Nodes(dpool, deviceList));
      DeviceNode(0);
      var pos := deviceList.head;
      ghost var i := 0;
      while pos != null
        invariant 0 <= i <= |nodes| == |ds| && pos == NodeAt(nodes, i) && Valid() && Same() && Safe(model)
        invariant Present(model, c.addr) && model.links.devs == ds && forall n :: n in ds[i..] ==> Known(model, n)
        invariant RemoveFromAll(s, env, now, c.addr, ds) == RemoveFromAll(model, env, now, c.addr, ds[i..])
        decreases |nodes| - i
      {
        DeviceNode(i);
        assert ds[i..][0] == pos.data.name && ds[i..][1..] == ds[i + 1..];
        rc := DisconnectClientFromDevice(c, pos.data, now);
        if rc.Err? && rc.errno != ENODEV {
          return;
        }
        Devices(model);
        Behind(ds, i + 1);
        DeviceNode(i);
        pos, i := pos.next, i + 1;
      }
      rc := Ok;
    }

    /** Nothing but g_clients refers to a client that no device lists. */
    lemma Unreferenced(l: Links, c: LinkClient, pool: map<LinkedList<LinkClient>, Chain<LinkClient>>,
                       chain: Chain<LinkClient>)
      requires Celled(dobj, cobj, pool.Keys, dpool.Keys) && Entries(l, dobj, cobj, pool, dpool) && Ours(c)
      requires NoDup(l.clis) && c.addr in l.clis
      requires forall n :: n in l.users ==> c.addr !in l.users[n]
      requires chain.items == Without(Items(pool, clientList), c)
      ensures Entries(DropClient(l, c.addr), dobj, cobj - {c.addr}, pool[clientList := chain], dpool)
      ensures c in Items(pool, clientList)
    {
      forall b | b in cobj && cobj[b] == c ensures b == c.addr {
        assert cobj[b].addr == b;
      }
      KeysOf(Items(pool, clientList), l.clis, cobj, c, c.addr);
      KeysIn(Items(pool, clientList), l.clis, c, c.addr);
      RefsLess(Items(pool, clientList), l.clis, cobj, c, c.addr);
      forall n | n in dobj
        ensures Refs(Items(pool[clientList := chain], dobj[n].clients), l.users[n], cobj - {c.addr})
      {
        RefsNarrow(Items(pool, dobj[n].clients), l.users[n], cobj, c.addr);
      }
      hide Refs;
    }

    lemma RecordsLess(dev: map<Name, Device>, heard: map<Addr, int>, a: Addr)
      requires Records(dev, heard, dobj, cobj)
      ensures Records(dev, heard - {a}, dobj, cobj - {a})
    {
    }

    ghost method Dismiss(a: Addr)
      requires Wired()
      modifies `cobj
      ensures Wired() && cobj == old(cobj) - {a}
    {
      hide Pool;
      cobj := cobj - {a};
    }

    lemma Listed(c: LinkClient)
      requires Valid() && Ours(c) && c.addr in model.links.clis
      ensures c in Items(cpool, clientList) && clientList in cpool && c.addr in cobj
      ensures cpool[clientList].items == Items(cpool, clientList)
      ensures |Items(cpool, clientList)| == |model.links.clis|
      ensures forall i :: 0 <= i < |model.links.clis| && Items(cpool, clientList)[i] == c
                          ==> model.links.clis[i] == c.addr
    {
      hide Wired;
      Named();
      forall b | b in cobj && cobj[b] == c ensures b == c.addr {
        assert cobj[b].addr == b;
      }
      KeysOf(Items(cpool, clientList), model.links.clis, cobj, c, c.addr);
      KeysIn(Items(cpool, clientList), model.links.clis, c, c.addr);
    }

    lemma Unlisted(l: Links, c: LinkClient, pool: map<LinkedList<LinkClient>, Chain<LinkClient>>,
                   chain: Chain<LinkClient>, at: nat, nodes: seq<Node<LinkClient>>)
      requires clientList in pool && Unlinks(pool[clientList], c, at, nodes) && nodes == chain.nodes
      requires |Items(pool, clientList)| == |l.clis|
      requires forall i :: 0 <= i < |l.clis| && Items(pool, clientList)[i] == c ==> l.clis[i] == c.addr
      ensures NodesLeft(l.clis, Nodes(pool, clientList), c.addr, at, Nodes(pool[clientList := chain], clientList))
    {
    }

    /** rm_client on g_clients: no device may still list the client. */
    method DelistClient(c: LinkClient) returns (ghost at: nat)
      requires Valid() && Ours(c) && NoDup(model.links.clis) && c.addr in model.links.clis
      requires forall n :: n in model.links.users ==> c.addr !in model.links.users[n]
      modifies `cobj, `cpool, cfoot
      ensures Wired() && Entries(DropClient(model.links, c.addr), dobj, cobj, cpool, dpool)
      ensures cobj == old(cobj) - {c.addr} && model == old(model) && ran == old(ran)
      ensures cfoot == old(cfoot) && dfoot == old(dfoot) && dobj == old(dobj)
      ensures NodesLeft(model.links.clis, old(Nodes(cpool, clientList)), c.addr, at, Nodes(cpool, clientList))
    {
      hide Entries, Refs, Wired, Records, Celled, Without, DropClient, Items, Nodes, Unlinks, NodesLeft;
      ghost var (pool, l) := (cpool, model.links);
      Listed(c);
      Outside();
      HasCells();
      var ok;
      ghost var nodes;
      ok, at, nodes := CutClients(clientList, c);
      Unlisted(l, c, pool, cpool[clientList], at, nodes);
      Unreferenced(l, c, pool, cpool[clientList]);
      Dismiss(c.addr);
    }

    /** And free(). */
    method FreeClient(c: LinkClient) returns (ghost at: nat)
      requires Valid() && Ours(c) && NoDup(model.links.clis) && c.addr in model.links.clis
      requires forall n :: n in model.links.users ==> c.addr !in model.links.users[n]
      modifies `model, `cobj, `cpool, cfoot
      ensures Valid() && cfoot == old(cfoot) && dfoot == old(dfoot) && dobj == old(dobj)
      ensures cobj == old(cobj) - {c.addr} && model == Forget(old(model), c.addr)
      ensures NodesLeft(old(model.links.clis), old(Nodes(cpool, clientList)), c.addr, at, Nodes(cpool, clientList))
    {
      hide Entries, Wired, Records, Forget, DropClient, Items, Nodes, NodesLeft;
      Outside();
      RecordsLess(model.dev, model.heard, c.addr);
      Forgotten(model, c.addr);
      at := DelistClient(c);
      Outside();
      model := Forget(model, c.addr);
    }

    /** update_client. */
    method UpdateClient(c: LinkClient, port: int, now: int)
      requires Valid() && Ours(c)
      modifies `model, c`heard, c`port
      ensures Valid() && Same() && c.port == port
      ensures model == old(model).(heard := old(model).heard[c.addr := now])
    {
      hide Entries, Wired;
      Outside();
      Named();
      c.heard, c.port := now, port;
      model := model.(heard := model.heard[c.addr := now]);
    }

    /** A new client and its empty list. */
    ghost method EnrolClient(c: LinkClient)
      requires Wired() && c.addr !in cobj && c !in cfoot && c !in dfoot
      requires c.devices !in cfoot && c.devices !in dfoot && c.devices !in dpool
      requires c.devices.Valid() && c.devices.Repr == {c.devices} && c.devices.contents == []
      modifies `cobj, `dpool, `dfoot
      ensures Wired() && cobj == old(cobj)[c.addr := c] && dfoot == old(dfoot) + {c.devices}
      ensures dpool == old(dpool)[c.devices := Chain([], [])]
    {
      hide Pool, Celled, Parted;
      Outside();
      InFoot(cpool, cfoot);
      InFoot(dpool, dfoot);
      MorePool(c.devices, dpool, dfoot);
      MoreClients(c);
      cobj, dpool, dfoot := cobj[c.addr := c], dpool[c.devices := Chain([], [])], dfoot + {c.devices};
      assert dpool.Keys == old(dpool.Keys) + {c.devices};
    }

    lemma MoreClients(c: LinkClient)
      requires Wired() && c.addr !in cobj && c !in cfoot && c !in dfoot
      requires c.devices !in cfoot && c.devices !in dfoot && c.devices !in dpool
      ensures Celled(dobj, cobj[c.addr := c], cpool.Keys, dpool.Keys + {c.devices})
      ensures Parted(dobj, cobj[c.addr := c], cfoot, dfoot + {c.devices})
    {
      hide Pool;
    }

    lemma ClientEnrolled(l: Links, c: LinkClient, objs: map<Addr, LinkClient>, dev: Chain<LinkClient>,
                         pool: map<LinkedList<LinkClient>, Chain<LinkClient>>,
                         devs: map<LinkedList<LinkDevice>, Chain<LinkDevice>>)
      requires Celled(dobj, objs, pool.Keys, devs.Keys) && Entries(l, dobj, objs, pool, devs)
      requires c.addr !in objs && c.devices !in devs && dev.items == Items(pool, clientList) + [c]
      requires Consistent(l)
      ensures Entries(AddClient(l, c.addr), dobj, objs[c.addr := c], pool[clientList := dev],
                      devs[c.devices := Chain([], [])])
    {
      var a := c.addr;
      RefsWiden(Items(pool, clientList), l.clis, objs, a, c);
      RefsAppend(Items(pool, clientList), l.clis, objs[a := c], a);
      RefsNone(dobj);
      forall n | n in dobj ensures Refs(Items(pool, dobj[n].clients), l.users[n], objs[a := c]) {
        RefsWiden(Items(pool, dobj[n].clients), l.users[n], objs, a, c);
      }
      hide Refs, Consistent;
    }

    lemma RecordsMoreClients(dev: map<Name, Device>, heard: map<Addr, int>, c: LinkClient)
      requires Records(dev, heard, dobj, cobj) && c.addr !in cobj
      ensures Records(dev, heard[c.addr := c.heard], dobj, cobj[c.addr := c])
    {
    }

    /** add_client on g_clients, for a client whose address is not in it. */
    method EnlistClient(c: LinkClient)
      requires Wired() && Entries(model.links, dobj, cobj, cpool, dpool) && Consistent(model.links)
      requires c.addr !in cobj && c !in cfoot && c !in dfoot
      requires c.devices !in cfoot && c.devices !in dfoot && c.devices !in dpool
      requires c.devices.Valid() && c.devices.Repr == {c.devices} && c.devices.contents == []
      modifies `cobj, `cpool, `dpool, `cfoot, `dfoot, cfoot
      ensures Wired() && Entries(AddClient(model.links, c.addr), dobj, cobj, cpool, dpool)
      ensures cobj == old(cobj)[c.addr := c] && fresh(cfoot - old(cfoot)) && dfoot == old(dfoot) + {c.devices}
      ensures model == old(model) && ran == old(ran) && dobj == old(dobj)
    {
      hide Entries, Wired, Celled, Consistent, AddClient, LinkedList.Valid;
      HasCells();
      ghost var (l, objs, pool, devs) := (model.links, cobj, cpool, dpool);
      NoEntry(l, c.addr);
      Outside();
      EnrolClient(c);
      Outside();
      Named();
      var ok, nodes := GrowClients(clientList, c);
      ClientEnrolled(l, c, objs, cpool[clientList], pool, devs);
    }

    method JoinClient(c: LinkClient)
      requires Valid() && c.addr !in cobj && c.heard == 0 && c !in cfoot && c !in dfoot && Consistent(model.links)
      requires c.devices !in cfoot && c.devices !in dfoot && c.devices !in dpool
      requires c.devices.Valid() && c.devices.Repr == {c.devices} && c.devices.contents == []
      modifies `model, `cobj, `cpool, `dpool, `cfoot, `dfoot, cfoot
      ensures Valid() && dobj == old(dobj) && cobj == old(cobj)[c.addr := c]
      ensures fresh(cfoot - old(cfoot)) && dfoot == old(dfoot) + {c.devices}
      ensures model == old(model).(links := AddClient(old(model.links), c.addr), heard := old(model).heard[c.addr := 0])
    {
      hide Entries, Wired, Consistent, Records, AddClient, LinkedList.Valid;
      Outside();
      RecordsMoreClients(model.dev, model.heard, c);
      EnlistClient(c);
      Outside();
      model := model.(links := AddClient(model.links, c.addr), heard := model.heard[c.addr := 0]);
    }

    /** malloc, and add_client on g_clients. */
    method NewClient(a: Addr) returns (c: LinkClient)
      requires Valid() && a !in cobj && Consistent(model.links)
      modifies this, cfoot
      ensures Valid() && Grown() && fresh(c) && c.addr == a && Ours(c) && dobj == old(dobj)
      ensures cobj == old(cobj)[a := c]
      ensures model == old(model).(links := AddClient(old(model.links), a), heard := old(model).heard[a := 0])
    {
      hide Valid, Consistent, AddClient;
      c := new LinkClient(a);
      JoinClient(c);
    }

    lemma NoEntry(l: Links, a: Addr)
      requires Entries(l, dobj, cobj, cpool, dpool) && a !in cobj
      requires Wired()
      ensures forall y :: y in Items(cpool, clientList) ==> y.addr != a
    {
      hide Pool;
      forall y | y in Items(cpool, clientList) ensures y.addr != a {
        var i :| 0 <= i < |l.clis| && Items(cpool, clientList)[i] == y;
        var b := l.clis[i];
        assert b in cobj && cobj[b].addr == b;
      }
    }

    // ---------- The sweeps ----------

    /** The removal of one silent client, whose node stood at position `at` of g_clients. */
    method AgeClient(c: LinkClient, now: int) returns (rc: Rc, ghost at: nat)
      requires Valid() && Ours(c) && Safe(model)
      modifies this, dobj.Values, cobj.Values, cfoot, dfoot
      ensures Valid() && cfoot == old(cfoot) && dfoot == old(dfoot) && Safe(model) && dobj == old(dobj)
      ensures Present(old(model), c.addr) && forall n :: n in old(model).links.devs ==> Known(old(model), n)
      ensures var (t, r) := RemoveFromAll(old(model), env, now, c.addr, old(model).links.devs);
        rc == r && model == (if r.Ok? then Forget(t, c.addr) else t)
      ensures cobj == if rc.Ok? then old(cobj) - {c.addr} else old(cobj)
      ensures rc.Ok? ==> model.links.clis == Without(old(model.links.clis), c.addr)
      ensures rc.Ok? ==>
                NodesLeft(old(model.links.clis), old(Nodes(cpool, clientList)), c.addr, at, Nodes(cpool, clientList))
    {
      hide Valid, Linked, RemoveFromAll, Without, Items, Nodes;
      ClientIs(c);
      Devices(model);
      RemoveFromAllKeeps(model, env, now, c.addr, model.links.devs);
      at := 0;
      rc := RemoveClientFromAllDevices(c, now);
      if rc.Ok? {
        Devices(model);
        DropClientKeeps(model.links, c.addr);
        at := FreeClient(c);
      }
    }

    method AgeIfSilent(c: LinkClient, now: int) returns (rc: Rc, gone: bool, ghost at: nat)
      requires Valid() && Ours(c) && Safe(model)
      modifies this, dobj.Values, cobj.Values, cfoot, dfoot
      ensures Valid() && cfoot == old(cfoot) && dfoot == old(dfoot) && Safe(model) && dobj == old(dobj)
      ensures Present(old(model), c.addr) && forall n :: n in old(model).links.devs ==> Known(old(model), n)
      ensures gone <==> Silent(old(model), env, now, c.addr)
      ensures if !gone then (model, rc) == (old(model), Ok) && cobj == old(cobj)
        else
          var (t, r) := RemoveFromAll(old(model), env, now, c.addr, old(model).links.devs);
          rc == r && model == (if r.Ok? then Forget(t, c.addr) else t)
      ensures cobj.Values <= old(cobj.Values)
      ensures !gone ==> Nodes(cpool, clientList) == old(Nodes(cpool, clientList))
      ensures gone && rc.Ok? ==>
        && model.links.clis == Without(old(model.links.clis), c.addr)
        && NodesLeft(old(model.links.clis), old(Nodes(cpool, clientList)), c.addr, at, Nodes(cpool, clientList))
    {
      hide Valid, Consistent, Linked, RemoveFromAll, Without, Items, Nodes, NodesLeft, Forget;
      ClientIs(c);
      Devices(model);
      gone, rc, at := now > c.heard + env.clientTimeout, Ok, 0;
      if gone {
        rc, at := AgeClient(c, now);
      }
    }

    /** timeout_old_clients: the walk takes the next entry before it unlinks one. */
    method TimeoutOldClients(now: int) returns (rc: Rc)
      requires Valid() && Safe(model)
      modifies this, dobj.Values, cobj.Values, cfoot, dfoot
      ensures Valid() && cfoot == old(cfoot) && dfoot == old(dfoot) && Safe(model)
      ensures dobj == old(dobj) && cobj.Values <= old(cobj.Values)
      ensures forall n :: n in old(model).links.devs ==> Known(old(model), n)
      ensures NoDup(old(model).links.clis) && forall a :: a in old(model).links.clis ==> Present(old(model), a)
      ensures (model, rc) == AgeClients(old(model), env, now, old(model).links.clis)
    {
      hide Valid, Consistent, Linked, RemoveFromAll, NoDup, Without, Items, Nodes, NodesLeft, Forget, Silent, Known,
           Present;
      Devices(model);
      ghost var (s, cs, nodes) := (model, model.links.clis, Nodes(cpool, clientList));
      ClientNode(0);
      var pos := clientList.head;
      ghost var (i, k) := (0, 0);
      assert cs[0..] == cs;
      while pos != null
        invariant 0 <= i <= |nodes| == |cs| && 0 <= k <= |Nodes(cpool, clientList)| == |model.links.clis|
        invariant pos == NodeAt(nodes, i) && Nodes(cpool, clientList)[k..] == nodes[i..]
        invariant model.links.clis[k..] == cs[i..] && NoDup(cs[i..])
        invariant Valid() && cfoot == old(cfoot) && dfoot == old(dfoot) && Safe(model)
        invariant dobj == old(dobj) && cobj.Values <= old(cobj.Values)
        invariant forall a :: a in cs[i..] ==> Present(model, a)
        invariant forall n :: n in model.links.devs ==> Known(model, n)
        invariant AgeClients(s, env, now, cs) == AgeClients(model, env, now, cs[i..])
        decreases |nodes| - i
      {
        ClientNode(k);
        WalkOn(model.links.clis, Nodes(cpool, clientList), k, cs, nodes, i);
        Rest(cs, i);
        var (next, c) := (pos.next, pos.data);
        ghost var (clis, before) := (model.links.clis, Nodes(cpool, clientList));
        Devices(model);
        var gone;
        ghost var at;
        rc, gone, at := AgeIfSilent(c, now);
        if rc.Err? {
          return;
        }
        if gone {
          LeftAt(clis, before, c.addr, at, Nodes(cpool, clientList), k);
        } else {
          k := k + 1;
        }
        ClientNode(0);
        Devices(model);
        pos, i := next, i + 1;
      }
      rc := Ok;
    }

    method TimeoutDevice(d: LinkDevice, now: int) returns (rc: Rc)
      requires Valid() && Mine(d) && Safe(model)
      modifies this, dobj.Values, cobj.Values, cfoot, dfoot
      ensures Valid() && Same() && Safe(model) && Known(old(model), d.name)
      ensures (model, rc) == if Overdue(old(model), env, now, d.name)
                             then Alter(old(model), env, now, d.name, old(model).dev[d.name].status)
                             else (old(model), Ok)
    {
      hide Valid, Consistent, Linked, Alter, Items, Nodes;
      DeviceIs(d);
      AlterKeeps(model, env, now, d.name, d.status);
      rc := Ok;
      if (d.status == CONNECTING && d.since + env.connectTimeout < now)
         || (d.status == DISCONNECTING && d.since + env.disconnectTimeout < now) {
        rc := AlterDeviceStatus(d, d.status, now);
      }
    }

    /** timeout_old_devices. */
    method TimeoutOldDevices(now: int) returns (rc: Rc)
      requires Valid() && Safe(model)
      modifies this, dobj.Values, cobj.Values, cfoot, dfoot
      ensures Valid() && Same() && Safe(model)
      ensures forall n :: n in old(model).links.devs ==> Known(old(model), n)
      ensures (model, rc) == SweepDevices(old(model), env, now, old(model).links.devs)
    {
      hide Valid, Consistent, Linked, Alter, Overdue, Items, Nodes, Known, NoDup;
      Devices(model);
      ghost var (s, ds, nodes) := (model, model.links.devs, Nodes(dpool, deviceList));
      DeviceNode(0);
      var pos := deviceList.head;
      ghost var i := 0;
      while pos != null
        invariant 0 <= i <= |nodes| == |ds| && pos == NodeAt(nodes, i) && Valid() && Same() && Safe(model)
        invariant model.links.devs == ds && forall n :: n in ds[i..] ==> Known(model, n)
        invariant SweepDevices(s, env, now, ds) == SweepDevices(model, env, now, ds[i..])
        decreases |nodes| - i
      {
        DeviceNode(i);
        assert ds[i..][0] == pos.data.name && ds[i..][1..] == ds[i + 1..];
        rc := TimeoutDevice(pos.data, now);
        if rc.Err? {
          return;
        }
        Devices(model);
        Behind(ds, i + 1);
        DeviceNode(i);
        pos, i := pos.next, i + 1;
      }
      rc := Ok;
    }

    // ---------- Messages ----------

    /** get_device on g_devices. */
    method GetDevice(name: Name) returns (d: LinkDevice?)
      requires Valid() && WellFormed(model)
      ensures d == null <==> name !in model.dev
      ensures d != null ==> Mine(d) && d.name == name
    {
      hide Consistent;
      AllListed(model);
      Named();
      InPool(deviceList, dpool, dfoot);
      hide Wired;
      NamedIn(Items(dpool, deviceList), model.links.devs, name);
      var r := deviceList.Find((y: LinkDevice) => y.name == name);
      d := if r.Some? then r.value else null;
    }

    /** Looking for a name in a list of devices finds what the model finds in the list of names. */
    lemma NamedIn(list: seq<LinkDevice>, names: seq<Name>, name: Name)
      requires Refs(list, names, dobj) && forall n :: n in dobj ==> dobj[n].name == n
      ensures (exists y :: y in list && y.name == name) <==> name in names
      ensures forall y :: y in list ==> Mine(y)
    {
      if name in names {
        var i :| 0 <= i < |names| && names[i] == name;
        assert list[i] in list;
      }
    }

    /** get_device on a client's list. */
    method GetWant(c: LinkClient, name: Name) returns (d: LinkDevice?)
      requires Valid() && Ours(c) && WellFormed(model)
      ensures c.addr in model.links.wants && (d == null <==> name !in model.links.wants[c.addr])
      ensures d != null ==> Mine(d) && d.name == name
    {
      hide Consistent;
      Named();
      InPool(c.devices, dpool, dfoot);
      hide Wired;
      NamedIn(Items(dpool, c.devices), model.links.wants[c.addr], name);
      var r := c.devices.Find((y: LinkDevice) => y.name == name);
      d := if r.Some? then r.value else null;
    }

    lemma AddressedIn(list: seq<LinkClient>, addrs: seq<Addr>, a: Addr)
      requires Refs(list, addrs, cobj) && forall b :: b in cobj ==> cobj[b].addr == b
      ensures (exists y :: y in list && y.addr == a) <==> a in addrs
      ensures forall y :: y in list ==> Ours(y)
    {
      forall y | y in list ensures Ours(y) && y.addr in addrs {
        var i :| 0 <= i < |list| && list[i] == y;
        var b := addrs[i];
        assert b in addrs && b in cobj && cobj[b].addr == b;
      }
      if a in addrs {
        var i :| 0 <= i < |addrs| && addrs[i] == a;
        assert list[i] in list && cobj[a].addr == a;
      }
    }

    /** get_client on g_clients. */
    method GetClient(a: Addr) returns (c: LinkClient?)
      requires Valid() && WellFormed(model)
      ensures c == null <==> a !in cobj
      ensures c != null ==> Ours(c) && c.addr == a
      ensures cobj.Keys == model.links.wants.Keys
    {
      Named();
      InPool(clientList, cpool, cfoot);
      hide Wired;
      AddressedIn(Items(cpool, clientList), model.links.clis, a);
      var r := clientList.Find((y: LinkClient) => y.addr == a);
      c := if r.Some? then r.value else null;
    }

    /** The first half of process_client: find or create the sender, and note that it was heard, and
        at which port. */
    method HearClient(a: Addr, port: int, now: int) returns (c: LinkClient)
      requires Valid() && Safe(model)
      modifies this, cobj.Values, cfoot
      ensures Valid() && Grown() && Safe(model) && dobj == old(dobj)
      ensures Ours(c) && c.addr == a && c.port == port && fresh(cobj.Values - old(cobj.Values))
      ensures model == Hear(old(model), now, a)
    {
      hide Valid, Consistent, Linked, Items, Nodes;
      HearKeeps(model, now, a);
      var known := GetClient(a);
      if known == null {
        c := NewClient(a);
      } else {
        c := known;
      }
      ClientIs(c);
      UpdateClient(c, port, now);
    }

    method ForceOffDevice(d: LinkDevice, now: int) returns (rc: Rc)
      requires Valid() && Mine(d) && Safe(model)
      modifies this, dobj.Values, cobj.Values, cfoot, dfoot
      ensures Valid() && Same() && Safe(model) && Known(old(model), d.name)
      ensures var (t, r) := Alter(old(model), env, now, d.name, DOWN);
        rc == r && model == if r.Ok? then t.(links := ClearUsers(t.links, d.name)) else t
    {
      hide Valid, Consistent, Linked, Alter, Items, Nodes;
      DeviceIs(d);
      AlterKeeps(model, env, now, d.name, DOWN);
      ClearUsersKeeps(Alter(model, env, now, d.name, DOWN).0.links, d.name);
      rc := AlterDeviceStatus(d, DOWN, now);
      if rc.Ok? {
        RemoveAllUsers(d);
      }
    }

    method ServeUp(c: LinkClient, q: Request, now: int) returns (rc: Rc)
      requires Valid() && Ours(c) && Safe(model) && q.BringUp? && FromClient(q)
      modifies this, dobj.Values, cobj.Values, cfoot, dfoot
      ensures Valid() && Kept() && Grown() && Safe(model) && Safe(old(model)) && Present(old(model), c.addr)
      ensures (model, rc) == Serve(old(model), env, now, c.addr, q)
    {
      hide Valid, Consistent, Linked, Connect, Items, Nodes;
      ClientIs(c);
      var d := GetDevice(q.name);
      if d == null {
        return Err(ENODEV);
      }
      rc := ConnectClientToDevice(c, d, now);
    }

    method ServeDown(c: LinkClient, q: Request, now: int) returns (rc: Rc)
      requires Valid() && Ours(c) && Safe(model) && q.TakeDown? && FromClient(q)
      modifies this, dobj.Values, cobj.Values, cfoot, dfoot
      ensures Valid() && Same() && Safe(model) && Safe(old(model)) && Present(old(model), c.addr)
      ensures (model, rc) == Serve(old(model), env, now, c.addr, q)
    {
      hide Valid, Consistent, Linked, Disconnect, Items, Nodes;
      ClientIs(c);
      var d := GetWant(c, q.name);
      if d == null {
        return Err(ENODEV);
      }
      rc := DisconnectClientFromDevice(c, d, now);
    }

    method ServeForceOff(c: LinkClient, q: Request, now: int) returns (rc: Rc)
      requires Valid() && Ours(c) && Safe(model) && q.ForceOff? && FromClient(q)
      modifies this, dobj.Values, cobj.Values, cfoot, dfoot
      ensures Valid() && Same() && Safe(model) && Safe(old(model)) && Present(old(model), c.addr)
      ensures (model, rc) == Serve(old(model), env, now, c.addr, q)
    {
      hide Valid, Consistent, Linked, Alter, Items, Nodes;
      ClientIs(c);
      var d := GetDevice(q.name);
      if d == null {
        return Err(ENODEV);
      }
      rc := ForceOffDevice(d, now);
    }

    /** The second half of process_client, with what it sends back. */
    method ServeRequest(c: LinkClient, q: Request, now: int) returns (rc: Rc, reply: Option<string>)
      requires Valid() && Ours(c) && Safe(model) && FromClient(q)
      modifies this, dobj.Values, cobj.Values, cfoot, dfoot
      ensures Valid() && Kept() && Grown() && Safe(model) && Safe(old(model)) && Present(old(model), c.addr)
      ensures (model, rc) == Serve(old(model), env, now, c.addr, q)
      ensures Present(model, c.addr) && (forall n :: n in model.dev ==> Known(model, n))
      ensures reply == ReplyTo(model, c.addr, q, now)
    {
      hide Valid, Consistent, Linked, Connect, Disconnect, Alter, StatusLine, ClientStatusText, Items, Nodes;
      ClientIs(c);
      rc, reply := Ok, None;
      match q {
        case BringUp(_) => rc := ServeUp(c, q, now);
        case TakeDown(_) => rc := ServeDown(c, q, now);
        case ForceOff(_) => rc := ServeForceOff(c, q, now);
        case AskClientStatus =>
          var message := SendClientStatus(c);
          reply := Some(message);
        case AskStatus(n) =>
          var d := GetDevice(n);
          if d == null {
            return Err(ENODEV), None;
          }
          var line := PrintDeviceStatus(d, now);
          reply := Some(SERVER_STATUS_PREFIX + line);
        case BadClient => rc := Err(ENOTSUP);
        case _ =>
      }
    }

    /** process_peer. */
    method ProcessPeer(q: Request, now: int) returns (rc: Rc)
      requires Valid() && Safe(model) && (q.IsUp? || q.IsDown? || q.BadPeer?)
      modifies this, dobj.Values, cobj.Values, cfoot, dfoot
      ensures Valid() && Same() && Safe(model) && Safe(old(model))
      ensures (model, rc) == Notice(old(model), env, now, q)
    {
      hide Valid, Consistent, Linked, Alter, Items, Nodes;
      NoticeKeeps(model, env, now, q);
      rc := Ok;
      match q {
        case IsUp(n) =>
          var d := GetDevice(n);
          if d == null {
            return Err(ENODEV);
          }
          var ignored := AlterDeviceStatus(d, UP, now);
        case IsDown(n) =>
          var d := GetDevice(n);
          if d == null {
            return Err(ENODEV);
          }
          rc := AlterDeviceStatus(d, DOWN, now);
        case BadPeer => rc := Err(ENOTSUP);
      }
    }

    /** process_command on a datagram that has been received. */
    method ProcessCommand(d: Datagram, now: int) returns (rc: Rc, reply: Option<string>)
      requires Valid() && Safe(model)
      modifies this, dobj.Values, cobj.Values, cfoot, dfoot
      ensures Valid() && Grown() && Safe(model) && dobj == old(dobj)
      ensures fresh(cobj.Values - old(cobj.Values))
      ensures Safe(old(model)) && (model, rc) == Receive(old(model), env, now, d)
      ensures FromClient(ParseRequest(d.text)) ==>
        && Present(model, d.from) && (forall n :: n in model.dev ==> Known(model, n))
        && reply == ReplyTo(model, d.from, ParseRequest(d.text), now)
      ensures !FromClient(ParseRequest(d.text)) ==> reply == None
    {
      hide Valid, Consistent, Linked, ParseRequest, Serve, Notice, Hear, Items, Nodes;
      var q := ParseRequest(d.text);
      if FromClient(q) {
        var c := HearClient(d.from, d.port, now);
        rc, reply := ServeRequest(c, q, now);
        return;
      } else if q == BadPrefix {
        rc := Err(ENOTSUP);
      } else {
        rc := ProcessPeer(q, now);
      }
      reply := None;
    }

    // ---------- What the server sends ----------

    /** The user count is taken by walking the list. */
    method CountUsers(d: LinkDevice) returns (count: nat)
      requires Valid() && Mine(d)
      ensures Known(model, d.name) && count == |model.links.users[d.name]|
    {
      hide Valid, Items, Nodes;
      ghost var nodes := Nodes(cpool, d.clients);
      UserNode(d, 0);
      var pos := d.clients.head;
      count := 0;
      while pos != null
        invariant 0 <= count <= |nodes| && pos == NodeAt(nodes, count)
        decreases |nodes| - count
      {
        UserNode(d, count);
        pos, count := pos.next, count + 1;
      }
    }

    /** print_device_status. */
    method PrintDeviceStatus(d: LinkDevice, now: int) returns (s: string)
      requires Valid() && Mine(d)
      ensures Known(model, d.name)
      ensures s == StatusLine(d.name, ShownOf(model.dev[d.name], |model.links.users[d.name]|, now))
    {
      hide Valid, StatusWord, DecInt, ToInt32, Items, Nodes;
      DeviceIs(d);
      s := d.name + "\t" + StatusWord(d.status);
      if d.status == UP {
        var count := CountUsers(d);
        s := s + (DecInt(ToInt32(now - d.since)) + " " + DecInt(count));
      }
    }

    /** broadcast_status_message, up to the sending. */
    method BroadcastStatusMessage(now: int) returns (message: string)
      requires Valid() && Safe(model)
      ensures forall n :: n in model.links.devs ==> Known(model, n)
      ensures message == BroadcastText(Display(model, now))
    {
      Devices(model);
      message := AppendLines(BROADCAST_STATUS, now);
    }

    method AppendLines(start: string, now: int) returns (message: string)
      requires Valid() && forall n :: n in model.links.devs ==> Known(model, n)
      ensures message == start + Lines(Display(model, now))
    {
      LinesNone();
      hide Valid, StatusLine, Lines, ShownOf, Display, Items, Nodes;
      message := start;
      ghost var (shown, nodes) := (Display(model, now), Nodes(dpool, deviceList));
      assert shown[..0] == [] && message == start + "";
      DeviceNode(0);
      var pos := deviceList.head;
      ghost var i := 0;
      while pos != null
        invariant 0 <= i <= |nodes| == |shown| && pos == NodeAt(nodes, i) && message == start + Lines(shown[..i])
        decreases |nodes| - i
      {
        DeviceNode(i);
        var line := PrintDeviceStatus(pos.data, now);
        LinesSnoc(shown[..i], shown[i]);
        assert shown[..i + 1] == shown[..i] + [shown[i]];
        message := message + line + "\n";
        pos, i := pos.next, i + 1;
      }
      assert shown[..i] == shown;
    }

    /** send_client_status, up to the sending. */
    method SendClientStatus(c: LinkClient) returns (message: string)
      requires Valid() && Ours(c)
      ensures c.addr in model.links.wants && message == ClientStatusText(model.links.wants[c.addr])
    {
      hide Valid, Items, Nodes;
      WantNode(c, 0);
      ghost var (ws, nodes) := (model.links.wants[c.addr], Nodes(dpool, c.devices));
      message := SERVER_CLIENT_STATUS;
      var pos := c.devices.head;
      ghost var i := 0;
      if pos != null {
        message := message + pos.data.name;
        pos, i := pos.next, 1;
      }
      while pos != null
        invariant 0 <= i <= |nodes| == |ws| && pos == NodeAt(nodes, i) && (i == 0 <==> ws == [])
        invariant message == SERVER_CLIENT_STATUS + if ws == [] then "" else ws[0] + Tabbed(ws[1..i])
        decreases |nodes| - i
      {
        WantNode(c, i);
        TabbedSnoc(ws[1..i], ws[i]);
        assert ws[1..i + 1] == ws[1..i] + [ws[i]];
        message := message + "\t" + pos.data.name;
        pos, i := pos.next, i + 1;
      }
      assert ws != [] ==> ws[1..i] == ws[1..];
    }

    // ---------- The main loop ----------

    /** One pass of the main loop, with what it broadcasts; neither sweep looks at what came of the
        message or of the other sweep. */
    method Pass(i: Input) returns (message: string)
      requires Valid() && Safe(model)
      modifies this, dobj.Values, cobj.Values, cfoot, dfoot
      ensures Valid() && Grown() && Safe(model) && dobj == old(dobj)
      ensures fresh(cobj.Values - old(cobj.Values))
      ensures Safe(old(model)) && model == MainLoop.Pass(old(model), env, i)
      ensures var t := Answered(old(model), env, i);
        (forall n :: n in t.links.devs ==> Known(t, n)) && message == BroadcastText(Display(t, i.now))
    {
      hide Valid, Consistent, Linked, Receive, AgeClients, SweepDevices, BroadcastText, Display, ParseRequest,
           ReplyTo, Items, Nodes;
      if i.datagram.Some? {
        var rc, reply := ProcessCommand(i.datagram.value, i.now);
      }
      message := BroadcastStatusMessage(i.now);
      var rc := TimeoutOldClients(i.now);
      rc := TimeoutOldDevices(i.now);
    }

    /** The main loop over the inputs that select reports. */
    method Loop(inputs: seq<Input>)
      requires Valid() && Safe(model)
      modifies this, dobj.Values, cobj.Values, cfoot, dfoot
      ensures Valid() && Safe(old(model)) && model == Run(old(model), env, inputs)
    {
      hide Valid, Consistent, Linked, MainLoop.Pass, Items, Nodes, Answered, Display, BroadcastText;
      ghost var s := model;
      var k := 0;
      while k < |inputs|
        invariant 0 <= k <= |inputs| && Valid() && Safe(model)
        invariant Grown() && dobj == old(dobj) && fresh(cobj.Values - old(cobj.Values))
        invariant Run(s, env, inputs) == Run(model, env, inputs[k..])
      {
        assert inputs[k..][0] == inputs[k] && inputs[k..][1..] == inputs[k + 1..];
        var message := Pass(inputs[k]);
        k := k + 1;
      }
    }

    // ---------- Configuration ----------

    /** A new device and its empty list. */
    ghost method EnrolDevice(d: LinkDevice)
      requires Wired() && d.name !in dobj && d !in cfoot && d !in dfoot
      requires d.clients !in cfoot && d.clients !in dfoot && d.clients !in cpool
      requires d.clients.Valid() && d.clients.Repr == {d.clients} && d.clients.contents == []
      modifies `dobj, `cpool, `cfoot
      ensures Wired() && dobj == old(dobj)[d.name := d] && cfoot == old(cfoot) + {d.clients}
      ensures cpool == old(cpool)[d.clients := Chain([], [])]
    {
      hide Pool, Celled, Parted;
      Outside();
      InFoot(cpool, cfoot);
      InFoot(dpool, dfoot);
      MorePool(d.clients, cpool, cfoot);
      MoreDevices(d);
      dobj, cpool, cfoot := dobj[d.name := d], cpool[d.clients := Chain([], [])], cfoot + {d.clients};
      assert cpool.Keys == old(cpool.Keys) + {d.clients};
    }

    lemma MoreDevices(d: LinkDevice)
      requires Wired() && d.name !in dobj && d !in cfoot && d !in dfoot
      requires d.clients !in cfoot && d.clients !in dfoot && d.clients !in cpool
      ensures Celled(dobj[d.name := d], cobj, cpool.Keys + {d.clients}, dpool.Keys)
      ensures Parted(dobj[d.name := d], cobj, cfoot + {d.clients}, dfoot)
    {
      hide Pool;
    }

    lemma DeviceEnrolled(s: State, d: LinkDevice, objs: map<Name, LinkDevice>, chain: Chain<LinkDevice>,
                         pool: map<LinkedList<LinkClient>, Chain<LinkClient>>,
                         devs: map<LinkedList<LinkDevice>, Chain<LinkDevice>>)
      requires Celled(objs, cobj, pool.Keys, devs.Keys) && Entries(s.links, objs, cobj, pool, devs)
      requires d.name !in objs && d.name !in s.dev && d.clients !in pool
      requires chain.items == Items(devs, deviceList) + [d]
      ensures Entries(Configured(s, d.name).links, objs[d.name := d], cobj, pool[d.clients := Chain([], [])],
                      devs[deviceList := chain])
    {
      var n := d.name;
      RefsWiden(Items(devs, deviceList), s.links.devs, objs, n, d);
      RefsAppend(Items(devs, deviceList), s.links.devs, objs[n := d], n);
      RefsNone(cobj);
      forall a | a in cobj ensures Refs(Items(devs, cobj[a].devices), s.links.wants[a], objs[n := d]) {
        RefsWiden(Items(devs, cobj[a].devices), s.links.wants[a], objs, n, d);
      }
      hide Refs;
    }

    /** add_device on g_devices, while the configuration is read. */
    method AddDevice(name: Name)
      requires Valid() && Safe(model)
      modifies this, dfoot
      ensures Valid() && Grown() && model == Configured(old(model), name) && cobj == old(cobj)
      ensures name !in old(dobj) ==> fresh(dobj.Values - old(dobj.Values))
      ensures name in old(dobj) ==> dobj == old(dobj)
    {
      hide Valid, Linked, Configured, Items, Nodes;
      var known := GetDevice(name);
      Counts();
      if known == null {
        AppendDevice(name);
      } else {
        AlreadyThere(model, name);
      }
    }

    lemma RecordsMoreDevices(dev: map<Name, Device>, heard: map<Addr, int>, d: LinkDevice)
      requires Records(dev, heard, dobj, cobj) && d.name !in dobj
      ensures Records(dev[d.name := Device(d.status, d.since, d.retries)], heard, dobj[d.name := d], cobj)
    {
    }

    /** add_device on g_devices, for a device whose name is not in it. */
    method EnlistDevice(d: LinkDevice)
      requires Wired() && Entries(model.links, dobj, cobj, cpool, dpool)
      requires d.name !in dobj && d.name !in model.dev && d !in cfoot && d !in dfoot
      requires d.clients !in cfoot && d.clients !in dfoot && d.clients !in cpool
      requires d.clients.Valid() && d.clients.Repr == {d.clients} && d.clients.contents == []
      modifies `dobj, `cpool, `dpool, `cfoot, `dfoot, dfoot
      ensures Wired() && Entries(Configured(model, d.name).links, dobj, cobj, cpool, dpool)
      ensures dobj == old(dobj)[d.name := d] && fresh(dfoot - old(dfoot)) && cfoot == old(cfoot) + {d.clients}
      ensures model == old(model) && ran == old(ran) && cobj == old(cobj)
    {
      hide Entries, Wired, Celled, Configured, LinkedList.Valid;
      HasCells();
      ghost var (s, objs, pool, devs) := (model, dobj, cpool, dpool);
      NoDevice(s.links, d.name);
      Outside();
      EnrolDevice(d);
      Outside();
      Named();
      var ok, nodes := GrowDevices(deviceList, d);
      DeviceEnrolled(s, d, objs, dpool[deviceList], pool, devs);
    }

    method JoinDevice(d: LinkDevice)
      requires Valid() && d.name !in dobj && d.status == DOWN && d.since == 0 && d.retries == 0
      requires d !in cfoot && d !in dfoot && d.clients !in cfoot && d.clients !in dfoot && d.clients !in cpool
      requires d.clients.Valid() && d.clients.Repr == {d.clients} && d.clients.contents == []
      modifies `model, `dobj, `cpool, `dpool, `cfoot, `dfoot, dfoot
      ensures Valid() && cobj == old(cobj) && dobj == old(dobj)[d.name := d]
      ensures fresh(dfoot - old(dfoot)) && cfoot == old(cfoot) + {d.clients}
      ensures model == Configured(old(model), d.name)
    {
      hide Entries, Wired, Records, Configured, LinkedList.Valid;
      Outside();
      NotThere(model, d.name);
      RecordsMoreDevices(model.dev, model.heard, d);
      Appended(model, d.name);
      EnlistDevice(d);
      Outside();
      model := Configured(model, d.name);
    }

    lemma NotThere(s: State, n: Name)
      requires Records(s.dev, s.heard, dobj, cobj) && n !in dobj
      ensures n !in s.dev
    {
    }

    method AppendDevice(name: Name)
      requires Valid() && name !in dobj
      modifies this, dfoot
      ensures Valid() && Grown() && model == Configured(old(model), name) && cobj == old(cobj)
      ensures fresh(dobj.Values - old(dobj.Values))
    {
      hide Valid, Configured;
      var d := new LinkDevice(name);
      JoinDevice(d);
    }

    lemma NoDevice(l: Links, name: Name)
      requires Entries(l, dobj, cobj, cpool, dpool) && name !in dobj
      requires Wired()
      ensures forall y :: y in Items(dpool, deviceList) ==> y.name != name
    {
      hide Pool;
    }

    /** The devices of the configuration file, in its order. */
    method ReadConfig(names: seq<Name>)
      requires Valid() && model == Blank() && dobj == map[] && cobj == map[]
      modifies this, dfoot
      ensures Valid() && Grown() && Safe(model) && model == Boot(names)
      ensures fresh(dobj.Values) && cobj == map[]
    {
      hide Valid, Consistent, Linked, Configured, Unused, Items, Nodes;
      BlankUnused();
      var i := 0;
      while i < |names|
        invariant 0 <= i <= |names| && Valid() && Grown() && Unused(model) && fresh(dobj.Values) && cobj == map[]
        invariant Boot(names) == Configure(model, names[i..])
      {
        assert names[i..][0] == names[i] && names[i..][1..] == names[i + 1..];
        ConfiguredUnused(model, names[i]);
        UnusedSafe(model);
        AddDevice(names[i]);
        i := i + 1;
      }
      UnusedSafe(model);
    }
  }

  lemma SameKeys<K, V>(m: map<K, V>, k: K, v: V)
    requires k in m
    ensures m[k := v].Keys == m.Keys
  {
  }

  /** main, from the configuration to the end of the main loop. */
  method Operate(env: Env, names: seq<Name>, inputs: seq<Input>) returns (server: LinkServer)
    ensures fresh(server) && server.Valid() && server.env == env && server.model == Run(Boot(names), env, inputs)
  {
    server := new LinkServer(env);
    server.ReadConfig(names);
    server.Loop(inputs);
  }

  /** A list that does not mention `k` can do without its object. */
  lemma RefsNarrow<K, T>(list: seq<T>, keys: seq<K>, obj: map<K, T>, k: K)
    requires Refs(list, keys, obj) && k !in keys
    ensures Refs(list, keys, obj - {k})
  {
    forall i | 0 <= i < |keys| ensures keys[i] in obj - {k} && list[i] == (obj - {k})[keys[i]] {
      assert keys[i] in keys;
    }
  }

  lemma RefsWiden<K, T>(list: seq<T>, keys: seq<K>, obj: map<K, T>, k: K, x: T)
    requires Refs(list, keys, obj) && k !in obj
    ensures Refs(list, keys, obj[k := x])
  {
  }

  lemma RefsLess<K, T>(list: seq<T>, keys: seq<K>, obj: map<K, T>, x: T, k: K)
    requires Refs(list, keys, obj) && Keys(list, keys, x, k) && NoDup(keys)
    ensures Refs(Without(list, x), Without(keys, k), obj - {k})
  {
    RefsWithout(list, keys, obj, x, k);
    RefsNarrow(Without(list, x), Without(keys, k), obj, k);
  }

  /** The nodes of g_clients when the client at position `at` has been unlinked. */
  ghost predicate NodesLeft(clis: seq<Addr>, nodes: seq<Node<LinkClient>>, a: Addr, at: nat,
                         after: seq<Node<LinkClient>>)
  {
    at < |nodes| == |clis| && clis[at] == a && after == nodes[..at] + nodes[at + 1..]
  }

  lemma LeftAt(clis: seq<Addr>, nodes: seq<Node<LinkClient>>, a: Addr, at: nat, after: seq<Node<LinkClient>>, k: nat)
    requires NodesLeft(clis, nodes, a, at, after) && NoDup(clis) && k < |clis| && clis[k] == a
    ensures after[k..] == nodes[k + 1..] && Without(clis, a)[k..] == clis[k + 1..] && k <= |after| == |Without(clis, a)|
  {
    WithoutAt(clis, a, k);
  }

  /** Two walks over chains with a common tail. */
  lemma WalkOn(clis: seq<Addr>, s: seq<Node<LinkClient>>, k: nat, cs: seq<Addr>, t: seq<Node<LinkClient>>, i: nat)
    requires |clis| == |s| && |cs| == |t| && k <= |s| && i < |t|
    requires clis[k..] == cs[i..] && s[k..] == t[i..]
    ensures k < |s| && clis[k] == cs[i] && s[k] == t[i]
    ensures clis[k + 1..] == cs[i + 1..] && s[k + 1..] == t[i + 1..] && NodeAt(s, k + 1) == NodeAt(t, i + 1)
  {
    assert |s[k..]| == |t[i..]|;
    TailStep(clis, k, cs, i);
    TailStep(s, k, t, i);
    if k + 1 < |s| {
      assert s[k + 1..][0] == t[i + 1..][0];
    }
  }

  lemma AlreadyThere(s: State, n: Name)
    requires n in s.dev
    ensures Configured(s, n) == s
  {
  }

  lemma Appended(s: State, n: Name)
    requires n !in s.dev
    ensures var t := Configured(s, n);
      && t.links.devs == s.links.devs + [n] && t.links.users == s.links.users[n := []]
      && t.dev == s.dev[n := Device(DOWN, 0, 0)]
      && t == s.(links := t.links, dev := t.dev) && t.links == s.links.(devs := t.links.devs, users := t.links.users)
  {
  }

  lemma Forgotten(s: State, a: Addr)
    ensures Forget(s, a).links == DropClient(s.links, a) && Forget(s, a).heard == s.heard - {a}
    ensures Forget(s, a).dev == s.dev && Forget(s, a).ran == s.ran
  {
  }

  lemma AllListed(s: State)
    requires WellFormed(s)
    ensures forall n :: n in s.links.devs <==> n in s.dev
  {
  }

  lemma Behind<T>(s: seq<T>, i: nat)
    requires i <= |s|
    ensures forall x :: x in s[i..] ==> x in s
  {
  }

  lemma Rest(cs: seq<Addr>, i: nat)
    requires i < |cs| && NoDup(cs[i..])
    ensures cs[i..][0] == cs[i] && cs[i..][1..] == cs[i + 1..] && NoDup(cs[i + 1..])
    ensures forall a :: a in cs[i + 1..] ==> a in cs[i..] && a != cs[i]
  {
  }

  lemma Devices(s: State)
    requires Safe(s)
    ensures forall n :: n in s.links.devs ==> Known(s, n)
    ensures NoDup(s.links.devs) && NoDup(s.links.clis)
    ensures forall a :: a in s.links.clis <==> Present(s, a)
  {
  }

  lemma WipeConsistent(l: Links, n: Name)
    requires Consistent(l) && n in l.users
    ensures Consistent(ClearUsers(l, n)) && Consistent(Wipe(l, n))
  {
  }

  /** ClearWants for the first clients of g_clients only. */
  ghost function ClearSome(l: Links, cs: seq<Addr>, n: Name): Links {
    l.(wants := map a | a in l.wants :: if a in cs then Without(l.wants[a], n) else l.wants[a])
  }

  lemma ClearNone(l: Links, n: Name)
    ensures ClearSome(l, l.clis[..0], n) == l
  {
    assert ClearSome(l, [], n).wants == l.wants;
  }

  lemma ClearNext(l: Links, n: Name, i: nat)
    requires Consistent(l) && i < |l.clis|
    ensures l.clis[i] in l.wants && ClearSome(l, l.clis[..i], n).clis == l.clis
    ensures DropWant(ClearSome(l, l.clis[..i], n), l.clis[i], n) == ClearSome(l, l.clis[..i + 1], n)
  {
    var (x, y) := (DropWant(ClearSome(l, l.clis[..i], n), l.clis[i], n), ClearSome(l, l.clis[..i + 1], n));
    assert l.clis[..i + 1] == l.clis[..i] + [l.clis[i]];
    assert l.clis[i] !in l.clis[..i];
    assert x.wants == y.wants;
  }

  lemma ClearAll(l: Links, n: Name)
    requires Consistent(l)
    ensures ClearSome(l, l.clis[..|l.clis|], n) == ClearWants(l, n)
  {
    assert l.clis[..|l.clis|] == l.clis;
    forall a | a in l.wants ensures ClearSome(l, l.clis, n).wants[a] == ClearWants(l, n).wants[a] {
      assert a in l.clis;
    }
    assert ClearSome(l, l.clis, n).wants == ClearWants(l, n).wants;
  }
}
