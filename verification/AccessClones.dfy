/** scullpriv, which gives each terminal a device of its own
    (higher_scull/high_scull/access.c): a list of items, each a device and its key, that
    grows by an item when a terminal first opens the device. In every run each terminal has
    a scull device of its own, always the same one. */
module AccessClones {
  import opened Common
  import opened StoreAddress
  import opened Store
  import StoreBytes
  import StoreHistory

  datatype Key = Key(dev: nat)       // tty_devnum

  datatype Outcome =
    | Opened                               // 0
    | NoTerminal                           // -EINVAL
    | OutOfMemory                          // -ENOMEM
    | Answered(reply: StoreHistory.Reply)  // of a call on an open handle
    | NoHandle                             // no such call: the terminal has no handle yet

  /** What the list stands for: every terminal's device. */
  type Devices = map<Key, Store>

  datatype Event =
    | Open(tty: Option<Key>, writeOnly: bool, allocates: bool)
    | Use(key: Key, call: StoreHistory.Call)   // a read or write on a terminal's handle

  /** scull_c_open on the devices as a value. */
  function OpenDevice(m: Devices, tty: Option<Key>, writeOnly: bool, allocates: bool): (Devices, Outcome) {
    if tty == None then (m, NoTerminal)
    else if tty.value !in m && !allocates then (m, OutOfMemory)
    else (if writeOnly || tty.value !in m then m[tty.value := ScullTrim()] else m, Opened)
  }

  /** struct scull_listitem */
  class CloneItem {
    const key: Key
    var device: Store
    var next: CloneItem?

    constructor (key: Key)
      ensures this.key == key && device == ScullTrim() && next == null
    {
      this.key, device, next := key, ScullTrim(), null;
    }
  }

  /** The list from `head` on is `items`, and ends. */
  ghost predicate Linked(head: CloneItem?, items: seq<CloneItem>)
    reads items`next
  {
    && head == (if items == [] then null else items[0])
    && (forall i {:trigger items[i].next} :: 0 <= i < |items| ==>
          items[i].next == if i + 1 < |items| then items[i + 1] else null)
  }

  /** One item per key, and what each key's device holds. */
  ghost predicate Lists(items: seq<CloneItem>, m: Devices)
    reads items`device
  {
    && (forall i, j :: 0 <= i < j < |items| ==> items[i].key != items[j].key)
    && (forall i :: 0 <= i < |items| ==> items[i].key in m && m[items[i].key] == items[i].device)
    && (forall k :: k in m ==> exists i :: 0 <= i < |items| && items[i].key == k)
  }

  lemma LinkedMore(head: CloneItem?, items: seq<CloneItem>, item: CloneItem)
    requires Linked(head, items) && item.next == head
    ensures Linked(item, [item] + items)
  {
    var more := [item] + items;
    forall i | 0 <= i < |more|
      ensures more[i].next == if i + 1 < |more| then more[i + 1] else null
    {
      if i > 0 {
        assert more[i] == items[i - 1];
        assert items[i - 1].next == if i < |items| then items[i] else null;
      }
    }
  }

  lemma ListsMore(items: seq<CloneItem>, m: Devices, item: CloneItem)
    requires Lists(items, m) && item.key !in m
    ensures Lists([item] + items, m[item.key := item.device])
  {
    var more := [item] + items;
    assert more[0] == item && forall i :: 1 <= i < |more| ==> more[i] == items[i - 1];
    forall k | k in m
      ensures exists i :: 0 <= i < |more| && more[i].key == k
    {
      var i :| 0 <= i < |items| && items[i].key == k;
      assert more[i + 1].key == k;
    }
  }

  class CloneList {
    var head: CloneItem?
    ghost var items: seq<CloneItem>
    ghost var devices: Devices

    /** The list is acyclic, its keys are distinct, and it says what `devices` says. */
    ghost predicate Valid()
      reads this, items
    {
      Linked(head, items) && Lists(items, devices)
    }

    constructor ()
      ensures Valid() && devices == map[] && items == []
    {
      head, items, devices := null, [], map[];
    }

    /** scull_c_lookfor_device: an item with the key, made if there is none. */
    method LookFor(key: Key, allocates: bool) returns (lptr: CloneItem?)
      requires Valid()
      modifies this
      ensures Valid()
      ensures lptr == null <==> key !in old(devices) && !allocates
      ensures lptr != null ==> lptr in items && lptr.key == key
      ensures items == if key in old(devices) || lptr == null then old(items) else [lptr] + old(items)
      ensures lptr != null && key !in old(devices) ==> fresh(lptr)
      ensures devices == if key in old(devices) || lptr == null then old(devices) else old(devices)[key := ScullTrim()]
    {
      lptr := head;
      ghost var i := 0;
      while lptr != null
        invariant 0 <= i <= |items| && lptr == if i < |items| then items[i] else null
        invariant forall j :: 0 <= j < i ==> items[j].key != key
        decreases |items| - i
      {
        if lptr.key == key {
          return;
        }
        lptr := lptr.next;
        i := i + 1;
      }
      if !allocates {
        return;
      }
      lptr := new CloneItem(key);
      Add(lptr);
    }

    /** list_add: the new item goes first. */
    method Add(lptr: CloneItem)
      requires Valid() && lptr !in items && lptr.key !in devices && lptr.next == null
      modifies this, lptr`next
      ensures Valid() && items == [lptr] + old(items) && devices == old(devices)[lptr.key := lptr.device]
    {
      hide Linked, Lists;
      lptr.next := head;
      LinkedMore(head, items, lptr);
      ListsMore(items, devices, lptr);
      head := lptr;
      items, devices := [lptr] + items, devices[lptr.key := lptr.device];
    }

    /** scull_c_open: it fails without a terminal, and without memory for the device of a new
        one; else the terminal has a device, new and empty, or emptied, or as it was. The handle
        refers to `item`. */
    method Open(tty: Option<Key>, writeOnly: bool, allocates: bool) returns (r: Outcome, item: CloneItem?)
      requires Valid()
      modifies this, items
      ensures Valid()
      ensures (devices, r) == OpenDevice(old(devices), tty, writeOnly, allocates)
      ensures r == NoTerminal <==> tty == None
      ensures r == Opened <==> tty.Some? && (tty.value in old(devices) || allocates)
      ensures r == OutOfMemory <==> tty.Some? && tty.value !in old(devices) && !allocates
      ensures r == Opened ==> tty.value in devices
      ensures r == Opened ==> (devices[tty.value] == if writeOnly || tty.value !in old(devices) then ScullTrim()
                                                     else old(devices)[tty.value])
      ensures forall k :: Some(k) != tty || r != Opened ==> AgreeOn(devices, old(devices), k)
      ensures r == Opened <==> item != null
      ensures item != null ==> tty == Some(item.key) && item in items
      ensures item != null && item.key in old(devices) ==> item in old(items)
      ensures forall x :: x in old(items) ==> x in items
      ensures forall i :: 0 <= i < |items| ==> items[i] in old(items) || fresh(items[i])
      ensures forall x :: x in old(items) && x != item ==> x.device == old(x.device)
    {
      hide Valid;
      if tty == None {
        return NoTerminal, null;
      }
      item := LookFor(tty.value, allocates);
      if item == null {
        return OutOfMemory, null;
      }
      if writeOnly {
        Replace(item, ScullTrim());
        assert devices == OpenDevice(old(devices), tty, writeOnly, allocates).0;
      }
      r := Opened;
    }

    method Replace(item: CloneItem, after: Store)
      requires Valid() && item in items
      modifies this, item`device
      ensures Valid() && items == old(items)
      ensures item.key in old(devices) && devices == old(devices)[item.key := after]
      ensures item.device == after
    {
      item.device := after;
      devices := devices[item.key := after];
    }

    /** A read or write on a handle for `item`. */
    method Use(g: Shape, item: CloneItem, call: StoreHistory.Call) returns (reply: StoreHistory.Reply)
      requires Valid() && item in items && StoreHistory.CallOk(g, call) && ItemsOk(g, item.device.items)
      modifies this, item`device
      ensures Valid() && items == old(items) && item.key in old(devices)
      ensures ItemsOk(g, old(devices)[item.key].items)
      ensures (item.device, reply) == StoreHistory.Answer(g, StoreHistory.Scull, old(devices)[item.key], call)
      ensures devices == old(devices)[item.key := item.device]
    {
      hide Linked;
      var (after, r) := StoreHistory.Answer(g, StoreHistory.Scull, item.device, call);
      Replace(item, after);
      reply := r;
    }

    lemma DeviceIs(item: CloneItem)
      requires Valid() && item in items
      ensures item.key in devices && devices[item.key] == item.device
    {
    }

    /** Equal keys, one device. */
    lemma OneItemPerKey(a: CloneItem, b: CloneItem)
      requires Valid() && a in items && b in items && a.key == b.key
      ensures a == b
    {
    }
  }

  // ------------------------------------------------------------------ runs

  ghost predicate EventOk(g: Shape, e: Event) {
    e.Use? ==> !e.call.Open? && StoreHistory.CallOk(g, e.call)
  }

  ghost predicate EventsOk(g: Shape, events: seq<Event>) {
    forall i :: 0 <= i < |events| ==> EventOk(g, events[i])
  }

  ghost predicate DevicesOk(g: Shape, m: Devices) {
    forall k :: k in m ==> StoreBytes.Valid(g, m[k])
  }

  function Step(g: Shape, m: Devices, e: Event): (Devices, Outcome)
    requires EventOk(g, e) && DevicesOk(g, m)
  {
    match e
    case Open(tty, writeOnly, allocates) => OpenDevice(m, tty, writeOnly, allocates)
    case Use(k, call) =>
      if k !in m then (m, NoHandle)
      else
        var (after, reply) := StoreHistory.Answer(g, StoreHistory.Scull, m[k], call);
        (m[k := after], Answered(reply))
  }

  ghost function Run(g: Shape, events: seq<Event>): (m: Devices)
    requires EventsOk(g, events)
    ensures DevicesOk(g, m)
  {
    if events == [] then map[]
    else
      var n := |events| - 1;
      StepKeepsOk(g, Run(g, events[..n]), events[n]);
      Step(g, Run(g, events[..n]), events[n]).0
  }

  lemma StepKeepsOk(g: Shape, m: Devices, e: Event)
    requires EventOk(g, e) && DevicesOk(g, m)
    ensures DevicesOk(g, Step(g, m, e).0)
  {
    hide StoreHistory.Answer, Locate;
    if e.Use? && e.key in m {
      StoreHistory.AnswerKeepsValid(g, StoreHistory.Scull, m[e.key], e.call);
    }
  }

  ghost function OutcomeAt(g: Shape, events: seq<Event>, i: nat): Outcome
    requires EventsOk(g, events) && i < |events|
  {
    Step(g, Run(g, events[..i]), events[i]).1
  }

  ghost predicate About(e: Event, k: Key) {
    if e.Open? then e.tty == Some(k) else e.key == k
  }

  /** The outcomes of one terminal's events. */
  ghost function Outcomes(g: Shape, events: seq<Event>, k: Key): seq<Outcome>
    requires EventsOk(g, events)
  {
    if events == [] then []
    else
      var n := |events| - 1;
      Outcomes(g, events[..n], k) + if About(events[n], k) then [OutcomeAt(g, events, n)] else []
  }

  /** The call on a scull device of its own that an event of that terminal amounts to. */
  function OwnCall(e: Event, r: Outcome): seq<StoreHistory.Call> {
    if r == Opened && e.Open? then [StoreHistory.Open(e.writeOnly, false)]
    else if r.Answered? && e.Use? then [e.call]
    else []
  }

  /** The calls that such a device would have had. */
  ghost function OwnCalls(g: Shape, events: seq<Event>, k: Key): seq<StoreHistory.Call>
    requires EventsOk(g, events)
  {
    if events == [] then []
    else
      var n := |events| - 1;
      OwnCalls(g, events[..n], k)
      + if About(events[n], k) then OwnCall(events[n], OutcomeAt(g, events, n)) else []
  }

  function ReplyOf(r: Outcome): seq<StoreHistory.Reply> {
    if r == Opened then [StoreHistory.Reply(Done(0), [])] else if r.Answered? then [r.reply] else []
  }

  /** The replies among some outcomes. */
  ghost function Replies(outcomes: seq<Outcome>): seq<StoreHistory.Reply> {
    if outcomes == [] then []
    else Replies(outcomes[..|outcomes| - 1]) + ReplyOf(outcomes[|outcomes| - 1])
  }

  ghost function Only(events: seq<Event>, k: Key): seq<Event> {
    if events == [] then []
    else
      var n := |events| - 1;
      Only(events[..n], k) + if About(events[n], k) then [events[n]] else []
  }

  ghost predicate AgreeOn(a: Devices, b: Devices, k: Key) {
    if k in a then k in b && a[k] == b[k] else k !in b
  }

  /** What one event does, to the terminal it is about and to any other. */
  lemma StepIsLocal(g: Shape, a: Devices, b: Devices, e: Event, k: Key)
    requires EventOk(g, e) && DevicesOk(g, a) && DevicesOk(g, b) && AgreeOn(a, b, k)
    ensures About(e, k) ==> Step(g, a, e).1 == Step(g, b, e).1 && AgreeOn(Step(g, a, e).0, Step(g, b, e).0, k)
    ensures !About(e, k) ==> AgreeOn(Step(g, a, e).0, b, k)
  {
    hide StoreHistory.Answer;
  }

  lemma {:induction false} OnlyIsOk(g: Shape, events: seq<Event>, k: Key)
    requires EventsOk(g, events)
    ensures EventsOk(g, Only(events, k))
  {
    if events != [] {
      OnlyIsOk(g, events[..|events| - 1], k);
    }
  }

  /** One more event at the end of a run. */
  lemma RunMore(g: Shape, events: seq<Event>, e: Event)
    requires EventsOk(g, events) && EventOk(g, e)
    ensures EventsOk(g, events + [e]) && Run(g, events + [e]) == Step(g, Run(g, events), e).0
    ensures OutcomeAt(g, events + [e], |events|) == Step(g, Run(g, events), e).1
    ensures forall i :: 0 <= i < |events| ==> OutcomeAt(g, events + [e], i) == OutcomeAt(g, events, i)
    ensures forall k: Key :: Outcomes(g, events + [e], k)
                          == Outcomes(g, events, k) + if About(e, k) then [Step(g, Run(g, events), e).1] else []
    ensures forall k: Key :: OwnCalls(g, events + [e], k)
              == OwnCalls(g, events, k) + if About(e, k) then OwnCall(e, Step(g, Run(g, events), e).1) else []
  {
    hide Step;
    assert (events + [e])[..|events|] == events;
    assert forall i :: 0 <= i < |events| ==> (events + [e])[..i] == events[..i];
  }

  /** What a terminal finds in its device, and how its opens, reads and writes end, is what
      it would be if nobody else used the driver. */
  lemma {:induction false} TerminalsAreIsolated(g: Shape, events: seq<Event>, k: Key)
    requires EventsOk(g, events)
    ensures EventsOk(g, Only(events, k))
    ensures AgreeOn(Run(g, events), Run(g, Only(events, k)), k)
    ensures Outcomes(g, events, k) == Outcomes(g, Only(events, k), k)
  {
    OnlyIsOk(g, events, k);
    if events != [] {
      var front, e := events[..|events| - 1], events[|events| - 1];
      TerminalsAreIsolated(g, front, k);
      var own := Only(front, k);
      assert events == front + [e];
      RunMore(g, front, e);
      StepIsLocal(g, Run(g, front), Run(g, own), e, k);
      if About(e, k) {
        RunMore(g, own, e);
      } else {
        assert Only(events, k) == own;
      }
    }
  }

  /** A terminal's device as a scull device: that has had these calls and given these
      replies. */
  ghost predicate IsScull(g: Shape, m: Devices, k: Key, calls: seq<StoreHistory.Call>,
                          replies: seq<StoreHistory.Reply>)
  {
    && StoreHistory.CallsOk(g, calls)
    && var alone := StoreHistory.Run(g, StoreHistory.Scull, calls);
       replies == alone.replies && if k in m then m[k] == alone.store else calls == []
  }

  /** A terminal's device is a scull device that has had the terminal's own calls, and answers
      as that does; so all that StoreHistory says of runs of scull holds of each terminal. */
  lemma {:induction false} TerminalHasAScull(g: Shape, events: seq<Event>, k: Key)
    requires EventsOk(g, events)
    ensures IsScull(g, Run(g, events), k, OwnCalls(g, events, k), Replies(Outcomes(g, events, k)))
  {
    hide Step, OwnCall, ReplyOf, StoreHistory.Run;
    if events == [] {
      assert StoreHistory.Run(g, StoreHistory.Scull, []).replies == [];
    } else {
      var front, e := events[..|events| - 1], events[|events| - 1];
      assert events == front + [e];
      TerminalHasAScull(g, front, k);
      RunMore(g, front, e);
      var calls, outcomes := OwnCalls(g, front, k), Outcomes(g, front, k);
      StepOnScull(g, Run(g, front), e, k, calls, Replies(outcomes));
      var r := Step(g, Run(g, front), e).1;
      assert (outcomes + [r])[..|outcomes|] == outcomes;
      assert calls + [] == calls && outcomes + [] == outcomes;
    }
  }

  lemma StepOnScull(g: Shape, m: Devices, e: Event, k: Key, calls: seq<StoreHistory.Call>,
                    replies: seq<StoreHistory.Reply>)
    requires EventOk(g, e) && DevicesOk(g, m) && IsScull(g, m, k, calls, replies)
    ensures var (m', r) := Step(g, m, e);
            if About(e, k) then IsScull(g, m', k, calls + OwnCall(e, r), replies + ReplyOf(r))
            else IsScull(g, m', k, calls, replies)
  {
    hide StoreHistory.Run, DevicesOk;
    var (m', r) := Step(g, m, e);
    if About(e, k) && (r == Opened || r.Answered?) {
      var c := if e.Open? then StoreHistory.Open(e.writeOnly, false) else e.call;
      StoreHistory.RunMore(g, StoreHistory.Scull, calls, c);
    } else {
      assert replies + [] == replies && calls + [] == calls;
    }
  }

  /** Some open of the terminal has found memory. */
  ghost predicate HadMemory(events: seq<Event>, k: Key) {
    exists i :: 0 <= i < |events| && events[i].Open? && events[i].tty == Some(k) && events[i].allocates
  }

  /** How an event ends, by what came before it. */
  ghost predicate EndsAsItShould(before: seq<Event>, e: Event, r: Outcome) {
    match e
    case Open(tty, _, allocates) =>
      && (r == NoTerminal <==> tty == None)
      && (r == Opened <==> tty.Some? && (allocates || HadMemory(before, tty.value)))
      && (r == OutOfMemory <==> tty.Some? && !allocates && !HadMemory(before, tty.value))
    case Use(k, _) =>
      && (r.Answered? <==> HadMemory(before, k))
      && (r == NoHandle <==> !HadMemory(before, k))
  }

  /** In every run an open with a terminal succeeds if and only if it finds memory or an earlier
      one of that terminal did, and a call is answered if and only if one did. */
  lemma WhenEventsSucceed(g: Shape, events: seq<Event>, i: nat)
    requires EventsOk(g, events) && i < |events|
    ensures EndsAsItShould(events[..i], events[i], OutcomeAt(g, events, i))
  {
    var e := events[i];
    if e.Use? {
      WhoHasADevice(g, events[..i], e.key);
    } else if e.tty.Some? {
      WhoHasADevice(g, events[..i], e.tty.value);
    }
    hide StoreHistory.Answer, HadMemory;
  }

  /** A terminal has a device once an open of it has found memory, and from then on. */
  lemma {:induction false} WhoHasADevice(g: Shape, events: seq<Event>, k: Key)
    requires EventsOk(g, events)
    ensures k in Run(g, events) <==> HadMemory(events, k)
  {
    hide StoreHistory.Answer;
    if events != [] {
      var n := |events| - 1;
      var front, e := events[..n], events[n];
      WhoHasADevice(g, front, k);
      assert events == front + [e];
      assert HadMemory(events, k) <==> HadMemory(front, k) || (e.Open? && e.tty == Some(k) && e.allocates) by {
        if HadMemory(front, k) {
          var i :| 0 <= i < n && front[i].Open? && front[i].tty == Some(k) && front[i].allocates;
          assert events[i] == front[i];
        }
      }
      hide HadMemory;
    }
  }

  // ------------------------------------------------------------------ runs of the list

  /** The handles that the terminals hold: for each device, its item. */
  ghost predicate HandlesOk(list: CloneList, handles: map<Key, CloneItem>)
    reads list, list.items
  {
    && handles.Keys == list.devices.Keys
    && forall k :: k in handles ==> handles[k] in list.items && handles[k].key == k
  }

  /** One event on a list; `item` is what an open was given. */
  method MakeEvent(g: Shape, list: CloneList, handles: map<Key, CloneItem>, e: Event)
    returns (r: Outcome, item: CloneItem?, handles': map<Key, CloneItem>)
    requires list.Valid() && HandlesOk(list, handles) && EventOk(g, e) && DevicesOk(g, list.devices)
    modifies list, list.items
    ensures list.Valid() && HandlesOk(list, handles') && DevicesOk(g, old(list.devices))
    ensures (list.devices, r) == Step(g, old(list.devices), e)
    ensures item != null <==> r == Opened
    ensures item != null ==> item in list.items && e.Open? && e.tty == Some(item.key)
    ensures forall x :: x in old(list.items) ==> x in list.items
    ensures forall i :: 0 <= i < |list.items| ==> list.items[i] in old(list.items) || fresh(list.items[i])
  {
    hide CloneList.Valid, DevicesOk, StoreHistory.Answer;
    r, item, handles' := NoHandle, null, handles;
    match e {
      case Open(tty, writeOnly, allocates) =>
        r, item := list.Open(tty, writeOnly, allocates);
        if item != null && item.key !in handles {
          handles' := handles[item.key := item];
        }
      case Use(k, call) =>
        if k in handles {
          list.DeviceIs(handles[k]);
          DeviceOk(g, list.devices, k);
          var reply := list.Use(g, handles[k], call);
          r := Answered(reply);
        }
    }
  }

  lemma DeviceOk(g: Shape, m: Devices, k: Key)
    requires DevicesOk(g, m) && k in m
    ensures ItemsOk(g, m[k].items)
  {
  }

  /** Any run on a new list, where every terminal goes on using the handle it was first
      given. Equal keys are given the same item however far apart, different keys different
      items, and the devices and outcomes are those of the run on the map. */
  method RunEvents(g: Shape, events: seq<Event>)
    returns (list: CloneList, outcomes: seq<Outcome>, given: seq<CloneItem?>)
    requires EventsOk(g, events)
    ensures list.Valid() && list.devices == Run(g, events)
    ensures |outcomes| == |given| == |events|
    ensures forall i :: 0 <= i < |events| ==> outcomes[i] == OutcomeAt(g, events, i)
    ensures forall i :: 0 <= i < |events| ==> EndsAsItShould(events[..i], events[i], outcomes[i])
    ensures forall i :: 0 <= i < |events| ==> (given[i] != null <==> outcomes[i] == Opened)
    ensures forall i, j :: 0 <= i < j < |events| && given[i] != null && given[j] != null ==>
              events[i].Open? && events[j].Open? && (given[i] == given[j] <==> events[i].tty == events[j].tty)
  {
    hide CloneList.Valid, Step, DevicesOk;
    list := new CloneList();
    outcomes, given := [], [];
    var handles: map<Key, CloneItem> := map[];
    assert HandlesOk(list, handles) && Run(g, events[..0]) == map[];
    assert GivenOk(list.items, events[..0], given);
    hide HandlesOk, Run, OutcomeAt, GivenOk, EndsAsItShould;
    for n := 0 to |events|
      invariant list.Valid() && fresh(list) && (forall i :: 0 <= i < |list.items| ==> fresh(list.items[i]))
      invariant list.devices == Run(g, events[..n]) && HandlesOk(list, handles) && |outcomes| == |given| == n
      invariant forall i :: 0 <= i < n ==> outcomes[i] == OutcomeAt(g, events[..n], i)
      invariant forall i :: 0 <= i < n ==> (given[i] != null <==> outcomes[i] == Opened)
      invariant GivenOk(list.items, events[..n], given)
    {
      assert events[..n + 1] == events[..n] + [events[n]];
      RunMore(g, events[..n], events[n]);
      var r, item;
      ghost var before := list.items;
      r, item, handles := MakeEvent(g, list, handles, events[n]);
      GivenMore(before, list.items, events[..n], given, events[n], item);
      outcomes, given := outcomes + [r], given + [item];
    }
    assert events[..|events|] == events;
    GivenByKey(list, events, given);
    forall i | 0 <= i < |events|
      ensures EndsAsItShould(events[..i], events[i], outcomes[i])
    {
      WhenEventsSucceed(g, events, i);
    }
  }

  /** Each open that succeeded was given the item of its terminal. */
  ghost predicate GivenOk(items: seq<CloneItem>, events: seq<Event>, given: seq<CloneItem?>) {
    && |given| == |events|
    && forall i :: 0 <= i < |events| && given[i] != null ==>
         given[i] in items && events[i].Open? && events[i].tty == Some(given[i].key)
  }

  lemma GivenMore(before: seq<CloneItem>, after: seq<CloneItem>, events: seq<Event>, given: seq<CloneItem?>,
                  e: Event, item: CloneItem?)
    requires GivenOk(before, events, given) && forall x :: x in before ==> x in after
    requires item != null ==> item in after && e.Open? && e.tty == Some(item.key)
    ensures GivenOk(after, events + [e], given + [item])
  {
  }

  lemma GivenByKey(list: CloneList, events: seq<Event>, given: seq<CloneItem?>)
    requires list.Valid() && GivenOk(list.items, events, given)
    ensures forall i, j :: 0 <= i < j < |events| && given[i] != null && given[j] != null ==>
              events[i].Open? && events[j].Open? && (given[i] == given[j] <==> events[i].tty == events[j].tty)
  {
    forall i, j | 0 <= i < j < |events| && given[i] != null && given[j] != null && given[i].key == given[j].key
      ensures given[i] == given[j]
    {
      list.OneItemPerKey(given[i], given[j]);
    }
  }
}
