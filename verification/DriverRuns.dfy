/** Whole runs of either driver in memory: what StoreHistory proves of the functions in Store
    holds of the devices, and no block is ever lost, shared or freed twice on the way. */
module DriverRuns {
  import opened Common
  import opened StoreAddress
  import opened Store
  import opened StoreHistory
  import opened SparseDevice
  import ScullDevice
  import ScullcDevice

  /** The invariant of the driver's device. */
  ghost predicate DeviceOk(d: Driver, dev: SparseDev)
    reads dev, dev.items, dev.picture.arrays.Keys, dev.picture.quanta.Keys
  {
    dev.Valid() && (d.Scullc? ==> dev.items != [])
  }

  lemma BlocksAreLive(d: Driver, dev: SparseDev)
    requires DeviceOk(d, dev)
    ensures (forall x :: x in dev.items ==> x in dev.live.items) && (forall x :: x in dev.live.items ==> x in dev.items)
    ensures forall i :: 0 <= i < |dev.items| ==> dev.items[i] in dev.live.items
    ensures dev.picture.arrays.Keys == dev.live.arrays && dev.picture.quanta.Keys == dev.live.quanta
    ensures ItemsOk(dev.shape, dev.store.items)
  {
    dev.ItemsAreOk();
  }

  method CallRead(d: Driver, dev: SparseDev, pos: nat, count: nat, env: Env) returns (reply: Reply)
    requires DeviceOk(d, dev)
    modifies dev, dev.items
    ensures DeviceOk(d, dev) && ItemsOk(dev.shape, old(dev.store.items))
    ensures (dev.store, reply) == AnswerRead(dev.shape, d, old(dev.store), pos, count, env)
    ensures fresh(dev.live.items - old(dev.live.items))
    ensures fresh(dev.live.arrays - old(dev.live.arrays)) && fresh(dev.live.quanta - old(dev.live.quanta))
  {
    hide ScullRead, ScullcRead;
    BlocksAreLive(d, dev);
    hide SparseDev.Valid;
    var r, out;
    if d.Scull? {
      r, out := ScullDevice.Read(dev, pos, count, env);
    } else {
      r, out := ScullcDevice.Read(dev, pos, count, env);
    }
    reply := Reply(r, out);
  }

  method CallWrite(d: Driver, dev: SparseDev, pos: nat, data: seq<Byte>, env: Env) returns (reply: Reply)
    requires DeviceOk(d, dev) && EnvOk(dev.shape, env)
    modifies dev, dev.items, dev.picture.arrays.Keys, dev.picture.quanta.Keys
    ensures DeviceOk(d, dev) && ItemsOk(dev.shape, old(dev.store.items))
    ensures (dev.store, reply) == AnswerWrite(dev.shape, d, old(dev.store), pos, data, env)
    ensures fresh(dev.live.items - old(dev.live.items))
    ensures fresh(dev.live.arrays - old(dev.live.arrays)) && fresh(dev.live.quanta - old(dev.live.quanta))
  {
    hide ScullWrite, ScullcWrite;
    BlocksAreLive(d, dev);
    hide SparseDev.Valid;
    var r;
    if d.Scull? {
      r := ScullDevice.Write(dev, pos, data, env);
    } else {
      r := ScullcDevice.Write(dev, pos, data, env);
    }
    reply := Reply(r, []);
  }

  method CallOpen(d: Driver, dev: SparseDev, writeOnly: bool, signal: bool) returns (reply: Reply)
    requires DeviceOk(d, dev)
    modifies dev, dev.items
    ensures DeviceOk(d, dev) && ItemsOk(dev.shape, old(dev.store.items))
    ensures (dev.store, reply) == Answer(dev.shape, d, old(dev.store), StoreHistory.Open(writeOnly, signal))
    ensures fresh(dev.live.items - old(dev.live.items))
    ensures fresh(dev.live.arrays - old(dev.live.arrays)) && fresh(dev.live.quanta - old(dev.live.quanta))
  {
    BlocksAreLive(d, dev);
    hide SparseDev.Valid;
    var r;
    if d.Scull? {
      r := ScullDevice.Open(dev, writeOnly, signal);
    } else {
      assert dev.items[0] in dev.live.items;
      r := ScullcDevice.Open(dev, writeOnly, signal);
    }
    reply := Reply(r, []);
  }

  /** One call on a device. */
  method MakeCall(d: Driver, dev: SparseDev, c: Call) returns (reply: Reply)
    requires DeviceOk(d, dev) && CallOk(dev.shape, c)
    modifies dev, dev.items, dev.picture.arrays.Keys, dev.picture.quanta.Keys
    ensures DeviceOk(d, dev) && ItemsOk(dev.shape, old(dev.store.items))
    ensures (dev.store, reply) == Answer(dev.shape, d, old(dev.store), c)
    ensures fresh(dev.live.items - old(dev.live.items))
    ensures fresh(dev.live.arrays - old(dev.live.arrays)) && fresh(dev.live.quanta - old(dev.live.quanta))
  {
    hide AnswerRead, AnswerWrite, DeviceOk;
    match c {
      case Read(pos, count, env) =>
        reply := CallRead(d, dev, pos, count, env);
      case Write(pos, data, env) =>
        reply := CallWrite(d, dev, pos, data, env);
      case Open(writeOnly, signal) =>
        reply := CallOpen(d, dev, writeOnly, signal);
    }
  }

  /** Any run of calls on a new device, with any failures. */
  method RunCalls(g: Shape, d: Driver, calls: seq<Call>) returns (dev: SparseDev, replies: seq<Reply>)
    requires CallsOk(g, calls)
    ensures DeviceOk(d, dev) && dev.shape == g
    ensures dev.store == Run(g, d, calls).store && replies == Run(g, d, calls).replies
    ensures Agrees(g, d, dev.store, Run(g, d, calls).history)
  {
    hide Answer, Observe, Agrees, CallOk, SparseDev.Valid;
    if d.Scull? {
      dev := new SparseDev(g);
    } else {
      dev := new SparseDev.Embedding(g);
    }
    replies := [];
    for i := 0 to |calls|
      invariant DeviceOk(d, dev) && dev.shape == g && fresh(dev)
      invariant fresh(dev.live.items) && fresh(dev.live.arrays) && fresh(dev.live.quanta)
      invariant dev.store == Run(g, d, calls[..i]).store && replies == Run(g, d, calls[..i]).replies
    {
      BlocksAreLive(d, dev);
      assert calls[..i + 1][..i] == calls[..i];
      var reply := MakeCall(d, dev, calls[i]);
      replies := replies + [reply];
    }
    assert calls[..|calls|] == calls;
    RunAgrees(g, d, calls);
  }
}
