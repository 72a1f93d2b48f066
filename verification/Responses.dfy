/**
 What a Responses stream owes its client, read off the fragments a chat stream delivered. The output
 and the log are functions of the whole fragment list, the log event by event as the source sends it;
 WellFormed and the lives it is made of say, without looking at how the log is built, what a client
 may rely on.
 */
module Responses {
  import opened Sequences

  datatype Usage = Usage(prompt: int, completion: int, total: int)

  /** One piece of output: some text, or some part of the call a provider numbers `key`. */
  datatype Fragment =
    | TextPiece(text: string)
    | CallPiece(key: int, id: string, name: string, arguments: string)

  /** A minted id, told apart by what it was minted for. */
  datatype ItemId = ItemId(prefix: string, index: nat)

  datatype CallId = Given(id: string) | Minted(index: nat)

  datatype Item =
    | MessageItem(id: ItemId, status: string, text: string)
    | CallItem(id: ItemId, status: string, callId: CallId, name: string, arguments: string)

  datatype Body = Body(status: string, model: string, output: seq<Item>, usage: Option<Usage>, error: Option<string>)

  datatype Event =
    | Created(body: Body)
    | InProgress(body: Body)
    | ItemAdded(index: nat, item: Item)
    | PartAdded(index: nat, id: ItemId)
    | TextDelta(index: nat, id: ItemId, delta: string)
    | TextDone(index: nat, id: ItemId, text: string)
    | PartDone(index: nat, id: ItemId, text: string)
    | ArgumentsDelta(index: nat, id: ItemId, delta: string)
    | ArgumentsDone(index: nat, id: ItemId, arguments: string)
    | ItemDone(index: nat, item: Item)
    | Completed(body: Body)
    | Failed(body: Body)

  // ---- the output, as the fragments determine it ----

  datatype Slot = TextSlot | CallSlot(key: int)

  function SlotOf(f: Fragment): Slot {
    match f
    case TextPiece(_) => TextSlot
    case CallPiece(key, _, _, _) => CallSlot(key)
  }

  /** Output items in the order they open; an item's output_index is its place here. */
  function Opened(fs: seq<Fragment>): seq<Slot> {
    if fs == [] then []
    else
      var before := Opened(fs[..|fs| - 1]);
      var slot := SlotOf(fs[|fs| - 1]);
      if slot in before then before else before + [slot]
  }

  function Flat(pieces: seq<string>): string {
    if pieces == [] then "" else Flat(pieces[..|pieces| - 1]) + pieces[|pieces| - 1]
  }

  /** What a fragment adds to the visible content of a slot: at most one delta. */
  function DeltaFor(f: Fragment, slot: Slot): seq<string> {
    if SlotOf(f) != slot then []
    else match f
      case TextPiece(text) => [text]
      case CallPiece(_, _, _, arguments) => if arguments == "" then [] else [arguments]
  }

  function Deltas(fs: seq<Fragment>, slot: Slot): seq<string> {
    if fs == [] then [] else Deltas(fs[..|fs| - 1], slot) + DeltaFor(fs[|fs| - 1], slot)
  }

  /** A slot's text or arguments: its own deltas, joined in order. */
  function Content(fs: seq<Fragment>, slot: Slot): string {
    Flat(Deltas(fs, slot))
  }

  /** The last non-empty id any fragment of a call carried. */
  function IdOf(fs: seq<Fragment>, key: int): string {
    if fs == [] then ""
    else match fs[|fs| - 1]
      case CallPiece(k, id, _, _) => if k == key && id != "" then id else IdOf(fs[..|fs| - 1], key)
      case _ => IdOf(fs[..|fs| - 1], key)
  }

  function NameOf(fs: seq<Fragment>, key: int): string {
    if fs == [] then ""
    else match fs[|fs| - 1]
      case CallPiece(k, _, name, _) => if k == key && name != "" then name else NameOf(fs[..|fs| - 1], key)
      case _ => NameOf(fs[..|fs| - 1], key)
  }

  function CallIdFor(id: string, index: nat): CallId {
    if id == "" then Minted(index) else Given(id)
  }

  /** Where a slot stands among the opened ones. */
  function Place(slots: seq<Slot>, slot: Slot): (i: nat)
    requires slot in slots
    ensures i < |slots| && slots[i] == slot
  {
    if slots[|slots| - 1] == slot then |slots| - 1 else Place(slots[..|slots| - 1], slot)
  }

  function CallKeys(slots: seq<Slot>): seq<int> {
    if slots == [] then []
    else CallKeys(slots[..|slots| - 1]) + (match slots[|slots| - 1] case CallSlot(key) => [key] case TextSlot => [])
  }

  function FinalCall(fs: seq<Fragment>, key: int): Item
    requires CallSlot(key) in Opened(fs)
  {
    var j := Place(Opened(fs), CallSlot(key));
    CallItem(ItemId("fc_", j), "completed", CallIdFor(IdOf(fs, key), j), NameOf(fs, key), Content(fs, CallSlot(key)))
  }

  function FinalText(fs: seq<Fragment>): Item
    requires TextSlot in Opened(fs)
  {
    MessageItem(ItemId("msg_", Place(Opened(fs), TextSlot)), "completed", Content(fs, TextSlot))
  }

  lemma {:induction false} CallKeysIn(slots: seq<Slot>)
    ensures forall key :: key in CallKeys(slots) <==> CallSlot(key) in slots
  {
    if slots != [] {
      CallKeysIn(slots[..|slots| - 1]);
      assert slots == slots[..|slots| - 1] + [slots[|slots| - 1]];
    }
  }

  function FinalCalls(fs: seq<Fragment>, keys: seq<int>): seq<Item>
    requires forall key :: key in keys ==> CallSlot(key) in Opened(fs)
  {
    if keys == [] then [] else FinalCalls(fs, keys[..|keys| - 1]) + [FinalCall(fs, keys[|keys| - 1])]
  }

  /** The finished output: the message first, then the calls in the order they opened. */
  function Output(fs: seq<Fragment>): seq<Item> {
    CallKeysIn(Opened(fs));
    (if TextSlot in Opened(fs) then [FinalText(fs)] else []) + FinalCalls(fs, CallKeys(Opened(fs)))
  }

  // ---- the events ----

  function IndexOf(e: Event): Option<nat> {
    match e
    case Created(_) => None
    case InProgress(_) => None
    case Completed(_) => None
    case Failed(_) => None
    case _ => Some(e.index)
  }

  function OnIndex(j: nat): Event -> bool {
    (e: Event) => IndexOf(e) == Some(j)
  }

  function Unindexed(): Event -> bool {
    (e: Event) => IndexOf(e) == None
  }

  /** The indices of the added items, in the order of their announcements. */
  function Announced(es: seq<Event>): seq<nat> {
    if es == [] then []
    else Announced(es[..|es| - 1]) + (if es[|es| - 1].ItemAdded? then [es[|es| - 1].index] else [])
  }

  /** 0, 1, and so on up to n - 1. */
  function Counting(n: nat): seq<nat> {
    if n == 0 then [] else Counting(n - 1) + [n - 1]
  }

  function TextDeltas(j: nat, deltas: seq<string>): seq<Event> {
    if deltas == [] then []
    else TextDeltas(j, deltas[..|deltas| - 1]) + [TextDelta(j, ItemId("msg_", j), deltas[|deltas| - 1])]
  }

  function ArgumentDeltas(j: nat, deltas: seq<string>): seq<Event> {
    if deltas == [] then []
    else ArgumentDeltas(j, deltas[..|deltas| - 1]) + [ArgumentsDelta(j, ItemId("fc_", j), deltas[|deltas| - 1])]
  }

  /** The whole life of a message item: opened, its deltas, then three closing events that carry their concatenation. */
  ghost predicate TextLife(es: seq<Event>, j: nat, deltas: seq<string>) {
    var id := ItemId("msg_", j);
    && TextOpen(es[..|es| - Min(3, |es|)], j, deltas)
    && |es| >= 3
    && es[|es| - 3..] == [TextDone(j, id, Flat(deltas)), PartDone(j, id, Flat(deltas)),
                          ItemDone(j, MessageItem(id, "completed", Flat(deltas)))]
  }

  ghost predicate TextOpen(es: seq<Event>, j: nat, deltas: seq<string>) {
    var id := ItemId("msg_", j);
    es == [ItemAdded(j, MessageItem(id, "in_progress", "")), PartAdded(j, id)] + TextDeltas(j, deltas)
  }

  /** The same for a call, whose id and name may still change after it is announced. */
  ghost predicate CallLife(es: seq<Event>, j: nat, deltas: seq<string>) {
    var id := ItemId("fc_", j);
    && CallOpen(es[..|es| - Min(2, |es|)], j, deltas)
    && |es| >= 2
    && es[|es| - 2] == ArgumentsDone(j, id, Flat(deltas))
    && es[|es| - 1].ItemDone? && es[|es| - 1].index == j
    && es[|es| - 1].item.CallItem? && es[|es| - 1].item.id == id && es[|es| - 1].item.status == "completed"
    && es[|es| - 1].item.arguments == Flat(deltas)
  }

  ghost predicate CallOpen(es: seq<Event>, j: nat, deltas: seq<string>) {
    var id := ItemId("fc_", j);
    && es != []
    && es[0].ItemAdded? && es[0].index == j
    && es[0].item.CallItem? && es[0].item.id == id && es[0].item.status == "in_progress" && es[0].item.arguments == ""
    && es[1..] == ArgumentDeltas(j, deltas)
  }

  /**
   A finished log: the opening pair, then nothing but item events, then the completed event. Item j
   is announced j-th, and the events that carry its index are exactly one complete life.
   */
  ghost predicate WellFormed(es: seq<Event>, slots: seq<Slot>, fs: seq<Fragment>) {
    && |es| >= 3 && es[0].Created? && es[1].InProgress? && es[|es| - 1].Completed?
    && Filter(Unindexed(), es) == [es[0], es[1], es[|es| - 1]]
    && Announced(es) == Counting(|slots|)
    && forall j: nat :: WholeLife(Filter(OnIndex(j), es), slots, fs, j)
  }

  /** The events of index j: one complete life, or nothing when no item has that index. */
  ghost predicate WholeLife(es: seq<Event>, slots: seq<Slot>, fs: seq<Fragment>, j: nat) {
    if j >= |slots| then es == []
    else if slots[j] == TextSlot then TextLife(es, j, Deltas(fs, TextSlot))
    else CallLife(es, j, Deltas(fs, slots[j]))
  }

  /** The same for a run that was cut short: nothing is closed. */
  ghost predicate PartialLife(es: seq<Event>, slots: seq<Slot>, fs: seq<Fragment>, j: nat) {
    if j >= |slots| then es == [] else OpenLife(es, slots[j], j, Deltas(fs, slots[j]))
  }

  /** The events of one slot so far: its announcement and its deltas. */
  ghost predicate OpenLife(es: seq<Event>, slot: Slot, j: nat, deltas: seq<string>) {
    match slot
    case TextSlot => TextOpen(es, j, deltas)
    case CallSlot(_) => CallOpen(es, j, deltas)
  }

  /** A log cut short: the same opening and the same item events, none closed, then the failure. */
  ghost predicate WellFormedUntilFailure(es: seq<Event>, slots: seq<Slot>, fs: seq<Fragment>) {
    && |es| >= 3 && es[0].Created? && es[1].InProgress? && es[|es| - 1].Failed?
    && Filter(Unindexed(), es) == [es[0], es[1], es[|es| - 1]]
    && Announced(es) == Counting(|slots|)
    && forall j: nat :: PartialLife(Filter(OnIndex(j), es), slots, fs, j)
  }

  // ---- the events the fragments call for ----

  /** The events one more fragment gives rise to. */
  function Frame(before: seq<Fragment>, f: Fragment): seq<Event> {
    var slots := Opened(before);
    var isNew := SlotOf(f) !in slots;
    var j := if isNew then |slots| else Place(slots, SlotOf(f));
    match f
    case TextPiece(text) =>
      var id := ItemId("msg_", j);
      (if isNew then [ItemAdded(j, MessageItem(id, "in_progress", "")), PartAdded(j, id)] else []) + [TextDelta(j, id, text)]
    case CallPiece(_, callId, name, arguments) =>
      var id := ItemId("fc_", j);
      (if isNew then [ItemAdded(j, CallItem(id, "in_progress", CallIdFor(callId, j), name, ""))] else []) +
      (if arguments != "" then [ArgumentsDelta(j, id, arguments)] else [])
  }

  function Frames(fs: seq<Fragment>): seq<Event> {
    if fs == [] then [] else Frames(fs[..|fs| - 1]) + Frame(fs[..|fs| - 1], fs[|fs| - 1])
  }

  function CloseText(fs: seq<Fragment>): seq<Event> {
    if TextSlot in Opened(fs) then
      var j, text := Place(Opened(fs), TextSlot), Content(fs, TextSlot);
      [TextDone(j, ItemId("msg_", j), text), PartDone(j, ItemId("msg_", j), text), ItemDone(j, FinalText(fs))]
    else []
  }

  function CloseCall(fs: seq<Fragment>, key: int): seq<Event>
    requires CallSlot(key) in Opened(fs)
  {
    var j := Place(Opened(fs), CallSlot(key));
    [ArgumentsDone(j, ItemId("fc_", j), Content(fs, CallSlot(key))), ItemDone(j, FinalCall(fs, key))]
  }

  function CloseCalls(fs: seq<Fragment>, keys: seq<int>): seq<Event>
    requires forall key :: key in keys ==> CallSlot(key) in Opened(fs)
  {
    if keys == [] then [] else CloseCalls(fs, keys[..|keys| - 1]) + CloseCall(fs, keys[|keys| - 1])
  }

  function CloseSlot(fs: seq<Fragment>, slot: Slot): seq<Event>
    requires slot in Opened(fs)
  {
    match slot
    case TextSlot => CloseText(fs)
    case CallSlot(key) => CloseCall(fs, key)
  }

  function Closing(fs: seq<Fragment>): seq<Event> {
    CallKeysIn(Opened(fs));
    CloseText(fs) + CloseCalls(fs, CallKeys(Opened(fs)))
  }

  function Opening(body: Body): seq<Event> {
    [Created(body), InProgress(body)]
  }

  /** Everything between the opening pair and the completed event. */
  function ItemLog(fs: seq<Fragment>): seq<Event> {
    Frames(fs) + Closing(fs)
  }

  function FinishedLog(opening: Body, fs: seq<Fragment>, final: Body): seq<Event> {
    Opening(opening) + ItemLog(fs) + [Completed(final)]
  }

  function FailedLog(opening: Body, fs: seq<Fragment>, final: Body): seq<Event> {
    Opening(opening) + Frames(fs) + [Failed(final)]
  }

  // ---- proofs ----

  lemma {:induction false} OpenedDistinct(fs: seq<Fragment>)
    ensures Distinct(Opened(fs))
  {
    if fs != [] {
      OpenedDistinct(fs[..|fs| - 1]);
    }
  }

  lemma {:induction false} PlaceUnique(slots: seq<Slot>, i: nat)
    requires Distinct(slots) && i < |slots|
    ensures Place(slots, slots[i]) == i
  {
    if slots[|slots| - 1] != slots[i] {
      PlaceUnique(slots[..|slots| - 1], i);
    }
  }

  /** Everything that depends on the fragments, one fragment later. */
  lemma FragmentSnoc(fs: seq<Fragment>, f: Fragment)
    ensures Opened(fs + [f]) == if SlotOf(f) in Opened(fs) then Opened(fs) else Opened(fs) + [SlotOf(f)]
    ensures Frames(fs + [f]) == Frames(fs) + Frame(fs, f)
    ensures forall slot :: Deltas(fs + [f], slot) == Deltas(fs, slot) + DeltaFor(f, slot)
  {
    SnocParts(fs, f);
  }

  lemma FlatSnoc(pieces: seq<string>, piece: string)
    ensures Flat(pieces + [piece]) == Flat(pieces) + piece
  {
    SnocParts(pieces, piece);
  }

  /** Events that all carry one index are all of that index's events among them. */
  lemma OneIndex(es: seq<Event>, at: nat, j: nat)
    requires forall e :: e in es ==> IndexOf(e) == Some(at)
    ensures Filter(OnIndex(j), es) == if j == at then es else []
    ensures Filter(Unindexed(), es) == []
  {
    FilterNone(Unindexed(), es);
    if j == at {
      FilterAll(OnIndex(j), es);
    } else {
      FilterNone(OnIndex(j), es);
    }
  }

  /** The index of the slot a fragment belongs to, opened by it or before. */
  function IndexFor(fs: seq<Fragment>, f: Fragment): nat {
    if SlotOf(f) in Opened(fs) then Place(Opened(fs), SlotOf(f)) else |Opened(fs)|
  }

  /** All events of one frame carry the index of the fragment's own slot. */
  lemma FrameIndex(fs: seq<Fragment>, f: Fragment, j: nat)
    ensures Filter(OnIndex(j), Frame(fs, f)) == if j == IndexFor(fs, f) then Frame(fs, f) else []
    ensures Filter(Unindexed(), Frame(fs, f)) == []
  {
    assert forall e :: e in Frame(fs, f) ==> IndexOf(e) == Some(IndexFor(fs, f));
    OneIndex(Frame(fs, f), IndexFor(fs, f), j);
  }

  lemma TextOpenGrows(es: seq<Event>, j: nat, deltas: seq<string>, text: string)
    requires TextOpen(es, j, deltas)
    ensures TextOpen(es + [TextDelta(j, ItemId("msg_", j), text)], j, deltas + [text])
  {
    SnocParts(deltas, text);
  }

  lemma CallOpenGrows(es: seq<Event>, j: nat, deltas: seq<string>, arguments: string)
    requires CallOpen(es, j, deltas)
    ensures CallOpen(es + [ArgumentsDelta(j, ItemId("fc_", j), arguments)], j, deltas + [arguments])
  {
    SnocParts(deltas, arguments);
    assert (es + [ArgumentsDelta(j, ItemId("fc_", j), arguments)])[1..] == es[1..] + [ArgumentsDelta(j, ItemId("fc_", j), arguments)];
  }

  lemma LifeGrows(es: seq<Event>, fs: seq<Fragment>, f: Fragment, j: nat)
    requires j < |Opened(fs)| && Opened(fs)[j] == SlotOf(f) && Distinct(Opened(fs))
    requires OpenLife(es, SlotOf(f), j, Deltas(fs, SlotOf(f)))
    ensures OpenLife(es + Frame(fs, f), SlotOf(f), j, Deltas(fs + [f], SlotOf(f)))
  {
    PlaceUnique(Opened(fs), j);
    var ds := Deltas(fs, SlotOf(f));
    assert Deltas(fs + [f], SlotOf(f)) == ds + DeltaFor(f, SlotOf(f)) by { FragmentSnoc(fs, f); }
    match f
    case TextPiece(text) =>
      assert Frame(fs, f) == [TextDelta(j, ItemId("msg_", j), text)];
      TextOpenGrows(es, j, ds, text);
    case CallPiece(_, _, _, arguments) =>
      if arguments != "" {
        assert Frame(fs, f) == [ArgumentsDelta(j, ItemId("fc_", j), arguments)];
        CallOpenGrows(es, j, ds, arguments);
      } else {
        assert es + Frame(fs, f) == es && ds + DeltaFor(f, SlotOf(f)) == ds;
      }
  }

  lemma LifeStarts(fs: seq<Fragment>, f: Fragment)
    requires SlotOf(f) !in Opened(fs) && Deltas(fs, SlotOf(f)) == []
    ensures OpenLife(Frame(fs, f), SlotOf(f), |Opened(fs)|, Deltas(fs + [f], SlotOf(f)))
  {
    var j := |Opened(fs)|;
    assert Deltas(fs + [f], SlotOf(f)) == DeltaFor(f, SlotOf(f)) by { FragmentSnoc(fs, f); }
    match f
    case TextPiece(text) =>
      var es := [ItemAdded(j, MessageItem(ItemId("msg_", j), "in_progress", "")), PartAdded(j, ItemId("msg_", j))];
      assert TextOpen(es, j, []);
      TextOpenGrows(es, j, [], text);
      assert [] + [text] == [text];
    case CallPiece(_, id, name, arguments) =>
      var es := [ItemAdded(j, CallItem(ItemId("fc_", j), "in_progress", CallIdFor(id, j), name, ""))];
      assert CallOpen(es, j, []);
      if arguments != "" {
        CallOpenGrows(es, j, [], arguments);
        assert [] + [arguments] == [arguments];
      }
  }

  lemma {:induction false} ClosedSlotsSilent(fs: seq<Fragment>, slot: Slot)
    requires slot !in Opened(fs)
    ensures Deltas(fs, slot) == []
  {
    if fs != [] {
      ClosedSlotsSilent(fs[..|fs| - 1], slot);
    }
  }

  /** The item events of a run, index by index. */
  lemma {:induction false} FramesLives(fs: seq<Fragment>)
    ensures forall j: nat :: LifeSoFar(fs, j)
    ensures Filter(Unindexed(), Frames(fs)) == []
  {
    if fs != [] {
      var before, f := fs[..|fs| - 1], fs[|fs| - 1];
      assert fs == before + [f];
      FramesLives(before);
      OpenedDistinct(before);
      forall j: nat ensures LifeSoFar(fs, j) {
        if j == |Opened(before)| && SlotOf(f) !in Opened(before) {
          FirstLife(before, f);
        } else if j >= |Opened(before)| {
          NoLife(before, f, j);
        } else if Opened(before)[j] == SlotOf(f) {
          OwnLife(before, f, j);
        } else {
          OthersLife(before, f, j);
        }
      }
      FramesUnindexed(before, f);
    }
  }

  lemma FramesUnindexed(before: seq<Fragment>, f: Fragment)
    requires Filter(Unindexed(), Frames(before)) == []
    ensures Filter(Unindexed(), Frames(before + [f])) == []
  {
    FragmentSnoc(before, f);
    FilterAppend(Unindexed(), Frames(before), Frame(before, f));
    FrameIndex(before, f, 0);
  }

  lemma FramesOnIndex(before: seq<Fragment>, f: Fragment, j: nat)
    ensures Filter(OnIndex(j), Frames(before + [f])) ==
      Filter(OnIndex(j), Frames(before)) + (if j == IndexFor(before, f) then Frame(before, f) else [])
  {
    FragmentSnoc(before, f);
    FilterAppend(OnIndex(j), Frames(before), Frame(before, f));
    FrameIndex(before, f, j);
  }

  lemma DeltasStay(fs: seq<Fragment>, f: Fragment, slot: Slot)
    requires SlotOf(f) != slot
    ensures Deltas(fs + [f], slot) == Deltas(fs, slot)
  {
    FragmentSnoc(fs, f);
  }

  /** What one more fragment does to the slots opened. */
  lemma SlotsSnoc(fs: seq<Fragment>, f: Fragment)
    ensures SlotOf(f) in Opened(fs) ==> Opened(fs + [f]) == Opened(fs)
    ensures SlotOf(f) !in Opened(fs) ==> Opened(fs + [f]) == Opened(fs) + [SlotOf(f)]
  {
    FragmentSnoc(fs, f);
  }

  ghost predicate LifeSoFar(fs: seq<Fragment>, j: nat) {
    PartialLife(Filter(OnIndex(j), Frames(fs)), Opened(fs), fs, j)
  }

  lemma OwnLife(before: seq<Fragment>, f: Fragment, j: nat)
    requires Distinct(Opened(before)) && j < |Opened(before)| && Opened(before)[j] == SlotOf(f) && LifeSoFar(before, j)
    ensures LifeSoFar(before + [f], j)
  {
    PlaceUnique(Opened(before), j);
    FramesOnIndex(before, f, j);
    SlotsSnoc(before, f);
    LifeGrows(Filter(OnIndex(j), Frames(before)), before, f, j);
  }

  lemma OthersLife(before: seq<Fragment>, f: Fragment, j: nat)
    requires Distinct(Opened(before)) && j < |Opened(before)| && Opened(before)[j] != SlotOf(f) && LifeSoFar(before, j)
    ensures LifeSoFar(before + [f], j)
  {
    FramesOnIndex(before, f, j);
    SlotsSnoc(before, f);
    DeltasStay(before, f, Opened(before)[j]);
    assert Filter(OnIndex(j), Frames(before)) + [] == Filter(OnIndex(j), Frames(before));
  }

  lemma FirstLife(before: seq<Fragment>, f: Fragment)
    requires SlotOf(f) !in Opened(before) && LifeSoFar(before, |Opened(before)|)
    ensures LifeSoFar(before + [f], |Opened(before)|)
  {
    var j := |Opened(before)|;
    FramesOnIndex(before, f, j);
    SlotsSnoc(before, f);
    ClosedSlotsSilent(before, SlotOf(f));
    LifeStarts(before, f);
    assert [] + Frame(before, f) == Frame(before, f);
  }

  lemma NoLife(before: seq<Fragment>, f: Fragment, j: nat)
    requires j >= |Opened(before)| && LifeSoFar(before, j) && (SlotOf(f) in Opened(before) || j > |Opened(before)|)
    ensures LifeSoFar(before + [f], j)
  {
    FramesOnIndex(before, f, j);
    SlotsSnoc(before, f);
    assert IndexFor(before, f) < j;
  }

  lemma {:induction false} AnnouncedAppend(a: seq<Event>, b: seq<Event>)
    ensures Announced(a + b) == Announced(a) + Announced(b)
  {
    if b == [] {
      assert a + b == a;
    } else {
      var b' := b[..|b| - 1];
      assert a + b == (a + b') + [b[|b| - 1]];
      SnocParts(a + b', b[|b| - 1]);
      AnnouncedAppend(a, b');
    }
  }

  lemma {:induction false} FramesAnnounce(fs: seq<Fragment>)
    ensures Announced(Frames(fs)) == Counting(|Opened(fs)|)
  {
    if fs != [] {
      var before, f := fs[..|fs| - 1], fs[|fs| - 1];
      assert fs == before + [f];
      FramesAnnounce(before);
      OneFrameMore(before, f);
    }
  }

  lemma OneFrameMore(before: seq<Fragment>, f: Fragment)
    requires Announced(Frames(before)) == Counting(|Opened(before)|)
    ensures Announced(Frames(before + [f])) == Counting(|Opened(before + [f])|)
  {
    var isNew := SlotOf(f) !in Opened(before);
    assert Frames(before + [f]) == Frames(before) + Frame(before, f) by { FragmentSnoc(before, f); }
    assert |Opened(before + [f])| == |Opened(before)| + (if isNew then 1 else 0) by { FragmentSnoc(before, f); }
    FrameAnnounces(before, f);
    AnnouncedMore(Frames(before), Frame(before, f), |Opened(before)|, isNew);
  }

  lemma AnnouncedMore(a: seq<Event>, b: seq<Event>, n: nat, isNew: bool)
    requires Announced(a) == Counting(n) && Announced(b) == if isNew then [n] else []
    ensures Announced(a + b) == Counting(if isNew then n + 1 else n)
  {
    AnnouncedAppend(a, b);
    assert Counting(n) + [n] == Counting(n + 1) && Counting(n) + [] == Counting(n);
  }

  lemma FrameAnnounces(fs: seq<Fragment>, f: Fragment)
    ensures Announced(Frame(fs, f)) == if SlotOf(f) in Opened(fs) then [] else [|Opened(fs)|]
  {
    var es := Frame(fs, f);
    if SlotOf(f) in Opened(fs) {
      NoneAnnounced(es);
    } else {
      assert es == [es[0]] + es[1..];
      AnnouncedAppend([es[0]], es[1..]);
      NoneAnnounced(es[1..]);
      assert Announced([es[0]]) == [|Opened(fs)|];
    }
  }

  lemma {:induction false} NoneAnnounced(es: seq<Event>)
    requires forall e :: e in es ==> !e.ItemAdded?
    ensures Announced(es) == []
  {
    if es != [] {
      NoneAnnounced(es[..|es| - 1]);
    }
  }

  /** Closing events carry only the index of the item they close. */
  lemma CloseTextIndex(fs: seq<Fragment>, j: nat)
    ensures TextSlot in Opened(fs) ==> Filter(OnIndex(j), CloseText(fs)) == if j == Place(Opened(fs), TextSlot) then CloseText(fs) else []
    ensures TextSlot !in Opened(fs) ==> Filter(OnIndex(j), CloseText(fs)) == []
    ensures Filter(Unindexed(), CloseText(fs)) == [] && Announced(CloseText(fs)) == []
  {
    var es := CloseText(fs);
    assert forall e :: e in es ==> !e.ItemAdded?;
    NoneAnnounced(es);
    if TextSlot in Opened(fs) {
      assert forall e :: e in es ==> IndexOf(e) == Some(Place(Opened(fs), TextSlot));
      OneIndex(es, Place(Opened(fs), TextSlot), j);
    }
  }

  lemma CloseCallIndex(fs: seq<Fragment>, key: int, j: nat)
    requires CallSlot(key) in Opened(fs)
    ensures Filter(OnIndex(j), CloseCall(fs, key)) == if j == Place(Opened(fs), CallSlot(key)) then CloseCall(fs, key) else []
    ensures Filter(Unindexed(), CloseCall(fs, key)) == [] && Announced(CloseCall(fs, key)) == []
  {
    var es := CloseCall(fs, key);
    assert forall e :: e in es ==> !e.ItemAdded? && IndexOf(e) == Some(Place(Opened(fs), CallSlot(key)));
    NoneAnnounced(es);
    OneIndex(es, Place(Opened(fs), CallSlot(key)), j);
  }

  lemma {:induction false} CloseCallsSilent(fs: seq<Fragment>, keys: seq<int>, j: nat)
    requires forall key :: key in keys ==> CallSlot(key) in Opened(fs) && Place(Opened(fs), CallSlot(key)) != j
    ensures Filter(OnIndex(j), CloseCalls(fs, keys)) == []
  {
    if keys != [] {
      var rest, last := keys[..|keys| - 1], keys[|keys| - 1];
      CloseCallsSilent(fs, rest, j);
      CloseCallIndex(fs, last, j);
      FilterAppend(OnIndex(j), CloseCalls(fs, rest), CloseCall(fs, last));
    }
  }

  lemma {:induction false} CloseCallsOnce(fs: seq<Fragment>, keys: seq<int>, key: int)
    requires forall k :: k in keys ==> CallSlot(k) in Opened(fs)
    requires Distinct(keys) && key in keys
    ensures Filter(OnIndex(Place(Opened(fs), CallSlot(key))), CloseCalls(fs, keys)) == CloseCall(fs, key)
  {
    var rest, last, j := keys[..|keys| - 1], keys[|keys| - 1], Place(Opened(fs), CallSlot(key));
    assert keys == rest + [last];
    assert Filter(OnIndex(j), CloseCalls(fs, keys)) == Filter(OnIndex(j), CloseCalls(fs, rest)) + Filter(OnIndex(j), CloseCall(fs, last)) by {
      FilterAppend(OnIndex(j), CloseCalls(fs, rest), CloseCall(fs, last));
    }
    if last == key {
      CloseCallsLast(fs, rest, key);
    } else {
      CloseCallsOnce(fs, rest, key);
      CloseCallOther(fs, last, j);
    }
  }

  lemma CloseCallOther(fs: seq<Fragment>, key: int, j: nat)
    requires CallSlot(key) in Opened(fs) && j != Place(Opened(fs), CallSlot(key))
    ensures Filter(OnIndex(j), CloseCall(fs, key)) == []
  {
    CloseCallIndex(fs, key, j);
  }

  lemma CloseCallsLast(fs: seq<Fragment>, rest: seq<int>, key: int)
    requires (forall k :: k in rest ==> CallSlot(k) in Opened(fs) && k != key) && CallSlot(key) in Opened(fs)
    ensures Filter(OnIndex(Place(Opened(fs), CallSlot(key))), CloseCalls(fs, rest)) == []
    ensures Filter(OnIndex(Place(Opened(fs), CallSlot(key))), CloseCall(fs, key)) == CloseCall(fs, key)
  {
    CloseCallsSilent(fs, rest, Place(Opened(fs), CallSlot(key)));
    CloseCallIndex(fs, key, Place(Opened(fs), CallSlot(key)));
  }

  lemma {:induction false} CloseCallsIndexed(fs: seq<Fragment>, keys: seq<int>)
    requires forall key :: key in keys ==> CallSlot(key) in Opened(fs)
    ensures Filter(Unindexed(), CloseCalls(fs, keys)) == [] && Announced(CloseCalls(fs, keys)) == []
  {
    if keys != [] {
      var rest, last := keys[..|keys| - 1], keys[|keys| - 1];
      CloseCallsIndexed(fs, rest);
      CloseCallIndex(fs, last, 0);
      FilterAppend(Unindexed(), CloseCalls(fs, rest), CloseCall(fs, last));
      AnnouncedAppend(CloseCalls(fs, rest), CloseCall(fs, last));
    }
  }

  lemma {:induction false} CallKeysDistinct(slots: seq<Slot>)
    requires Distinct(slots)
    ensures Distinct(CallKeys(slots))
  {
    if slots != [] {
      CallKeysDistinct(slots[..|slots| - 1]);
      CallKeysIn(slots[..|slots| - 1]);
    }
  }

  /** All closing events carry an index and announce nothing. */
  lemma ClosingIndexed(fs: seq<Fragment>)
    ensures Filter(Unindexed(), Closing(fs)) == [] && Announced(Closing(fs)) == []
  {
    var keys := CallKeys(Opened(fs));
    CallKeysIn(Opened(fs));
    CloseTextIndex(fs, 0);
    CloseCallsIndexed(fs, keys);
    FilterAppend(Unindexed(), CloseText(fs), CloseCalls(fs, keys));
    AnnouncedAppend(CloseText(fs), CloseCalls(fs, keys));
  }

  /** The closing events of a slot, wherever they stand in the closing sequence. */
  lemma ClosingOf(fs: seq<Fragment>, j: nat)
    ensures j >= |Opened(fs)| ==> Filter(OnIndex(j), Closing(fs)) == []
    ensures j < |Opened(fs)| ==> Filter(OnIndex(j), Closing(fs)) == CloseSlot(fs, Opened(fs)[j])
  {
    var keys := CallKeys(Opened(fs));
    CallKeysIn(Opened(fs));
    OpenedDistinct(fs);
    CloseTextIndex(fs, j);
    FilterAppend(OnIndex(j), CloseText(fs), CloseCalls(fs, keys));
    if j < |Opened(fs)| && Opened(fs)[j].CallSlot? {
      PlaceUnique(Opened(fs), j);
      CallKeysDistinct(Opened(fs));
      CloseCallsOnce(fs, keys, Opened(fs)[j].key);
    } else {
      if j < |Opened(fs)| {
        PlaceUnique(Opened(fs), j);
      }
      CloseCallsSilent(fs, keys, j);
    }
  }

  /** Readings of a log between its opening pair and its last event. */
  lemma Bracketed(opening: Body, middle: seq<Event>, end: Event, j: nat)
    requires IndexOf(end) == None && Filter(Unindexed(), middle) == []
    ensures var es := Opening(opening) + middle + [end];
      && Filter(OnIndex(j), es) == Filter(OnIndex(j), middle)
      && Filter(Unindexed(), es) == [Created(opening), InProgress(opening), end]
      && Announced(es) == Announced(middle)
  {
    BracketedOnIndex(opening, middle, end, j);
    BracketedUnindexed(opening, middle, end);
    BracketedAnnounced(opening, middle, end);
  }

  lemma BracketedUnindexed(opening: Body, middle: seq<Event>, end: Event)
    requires IndexOf(end) == None && Filter(Unindexed(), middle) == []
    ensures Filter(Unindexed(), Opening(opening) + middle + [end]) == [Created(opening), InProgress(opening), end]
  {
    var head := Opening(opening);
    FilterAppend(Unindexed(), head + middle, [end]);
    FilterAppend(Unindexed(), head, middle);
    FilterAll(Unindexed(), head);
    FilterAll(Unindexed(), [end]);
  }

  lemma BracketedAnnounced(opening: Body, middle: seq<Event>, end: Event)
    requires IndexOf(end) == None
    ensures Announced(Opening(opening) + middle + [end]) == Announced(middle)
  {
    var head := Opening(opening);
    AnnouncedAppend(head + middle, [end]);
    AnnouncedAppend(head, middle);
    NoneAnnounced(head);
    NoneAnnounced([end]);
  }

  lemma BracketedOnIndex(opening: Body, middle: seq<Event>, end: Event, j: nat)
    requires IndexOf(end) == None
    ensures Filter(OnIndex(j), Opening(opening) + middle + [end]) == Filter(OnIndex(j), middle)
  {
    var head := Opening(opening);
    FilterAppend(OnIndex(j), head + middle, [end]);
    FilterAppend(OnIndex(j), head, middle);
    FilterNone(OnIndex(j), head);
    FilterNone(OnIndex(j), [end]);
  }

  /** The item events of a finished run are announced in order and all carry an index. */
  lemma ItemEvents(fs: seq<Fragment>)
    ensures Filter(Unindexed(), ItemLog(fs)) == []
    ensures Announced(ItemLog(fs)) == Counting(|Opened(fs)|)
  {
    FramesLives(fs);
    FramesAnnounce(fs);
    ClosingIndexed(fs);
    FilterAppend(Unindexed(), Frames(fs), Closing(fs));
    AnnouncedAppend(Frames(fs), Closing(fs));
  }

  lemma LifeOnIndex(fs: seq<Fragment>, j: nat)
    ensures WholeLife(Filter(OnIndex(j), ItemLog(fs)), Opened(fs), fs, j)
  {
    FramesLives(fs);
    FilterAppend(OnIndex(j), Frames(fs), Closing(fs));
    ClosingOf(fs, j);
    assert LifeSoFar(fs, j);
    if j < |Opened(fs)| {
      OpenedDistinct(fs);
      PlaceUnique(Opened(fs), j);
      LifeCloses(fs, j, Filter(OnIndex(j), Frames(fs)), Filter(OnIndex(j), ItemLog(fs)));
    }
  }

  lemma BracketedLives(opening: Body, middle: seq<Event>, final: Body, slots: seq<Slot>, fs: seq<Fragment>)
    requires Filter(Unindexed(), middle) == [] && Announced(middle) == Counting(|slots|)
    requires forall j: nat :: WholeLife(Filter(OnIndex(j), middle), slots, fs, j)
    ensures WellFormed(Opening(opening) + middle + [Completed(final)], slots, fs)
  {
    Bracketed(opening, middle, Completed(final), 0);
    forall j: nat ensures WholeLife(Filter(OnIndex(j), Opening(opening) + middle + [Completed(final)]), slots, fs, j) {
      Bracketed(opening, middle, Completed(final), j);
    }
  }

  /** Every run that ends in finish is a well-formed event log. */
  lemma FinishedIsWellFormed(opening: Body, fs: seq<Fragment>, final: Body)
    ensures WellFormed(FinishedLog(opening, fs, final), Opened(fs), fs)
  {
    ItemEvents(fs);
    forall j: nat ensures WholeLife(Filter(OnIndex(j), ItemLog(fs)), Opened(fs), fs, j) {
      LifeOnIndex(fs, j);
    }
    BracketedLives(opening, ItemLog(fs), final, Opened(fs), fs);
  }

  lemma LifeCloses(fs: seq<Fragment>, j: nat, open: seq<Event>, life: seq<Event>)
    requires j < |Opened(fs)| && Place(Opened(fs), Opened(fs)[j]) == j
    requires OpenLife(open, Opened(fs)[j], j, Deltas(fs, Opened(fs)[j]))
    requires life == open + CloseSlot(fs, Opened(fs)[j])
    ensures if Opened(fs)[j] == TextSlot then TextLife(life, j, Deltas(fs, TextSlot)) else CallLife(life, j, Deltas(fs, Opened(fs)[j]))
  {
    if Opened(fs)[j] == TextSlot {
      assert life[..|life| - 3] == open;
    } else {
      assert life[..|life| - 2] == open;
    }
  }

  /** A run that ends in fail keeps the same promises up to the failure. */
  lemma FailedIsWellFormed(opening: Body, fs: seq<Fragment>, final: Body)
    ensures WellFormedUntilFailure(FailedLog(opening, fs, final), Opened(fs), fs)
  {
    FramesLives(fs);
    FramesAnnounce(fs);
    Bracketed(opening, Frames(fs), Failed(final), 0);
    forall j: nat ensures PartialLife(Filter(OnIndex(j), FailedLog(opening, fs, final)), Opened(fs), fs, j) {
      Bracketed(opening, Frames(fs), Failed(final), j);
      assert LifeSoFar(fs, j);
    }
  }

  // ---- what a call is announced and finished as ----

  /** Fragment i is the first of its call. */
  predicate FirstPiece(fs: seq<Fragment>, i: nat) {
    i < |fs| && fs[i].CallPiece? && forall h :: 0 <= h < i ==> !(fs[h].CallPiece? && fs[h].key == fs[i].key)
  }

  lemma {:induction false} OpensWhen(fs: seq<Fragment>, slot: Slot)
    ensures slot in Opened(fs) <==> exists h :: 0 <= h < |fs| && SlotOf(fs[h]) == slot
  {
    if fs != [] {
      OpensWhen(fs[..|fs| - 1], slot);
    }
  }

  /** How a call is announced at place j by its first fragment. */
  function Announcement(f: Fragment, j: nat): Event
    requires f.CallPiece?
  {
    ItemAdded(j, CallItem(ItemId("fc_", j), "in_progress", if f.id == "" then Minted(j) else Given(f.id), f.name, ""))
  }

  lemma NewCallFrame(before: seq<Fragment>, f: Fragment)
    requires f.CallPiece? && CallSlot(f.key) !in Opened(before)
    ensures Announcement(f, |Opened(before)|) in Frame(before, f)
  {
    assert Frame(before, f)[0] == Announcement(f, |Opened(before)|);
  }

  lemma InEither<T>(a: seq<T>, b: seq<T>, x: T)
    requires x in a || x in b
    ensures x in a + b
  {}

  /** A call is announced under the id and the name its first fragment carries, with no arguments yet. */
  lemma {:induction false} AnnouncedAs(fs: seq<Fragment>, i: nat)
    requires FirstPiece(fs, i)
    ensures Announcement(fs[i], |Opened(fs[..i])|) in Frames(fs)
    decreases |fs|
  {
    var n := |fs| - 1;
    if i < n {
      var event := Announcement(fs[i], |Opened(fs[..i])|);
      assert fs[..n][..i] == fs[..i];
      assert event in Frames(fs[..n]) by { AnnouncedAs(fs[..n], i); }
      InEither(Frames(fs[..n]), Frame(fs[..n], fs[n]), event);
    } else {
      AnnouncedLast(fs);
    }
  }

  lemma AnnouncedLast(fs: seq<Fragment>)
    requires fs != [] && FirstPiece(fs, |fs| - 1)
    ensures Announcement(fs[|fs| - 1], |Opened(fs[..|fs| - 1])|) in Frames(fs)
  {
    var n := |fs| - 1;
    NotYetOpen(fs, n);
    NewCallFrame(fs[..n], fs[n]);
    InEither(Frames(fs[..n]), Frame(fs[..n], fs[n]), Announcement(fs[n], |Opened(fs[..n])|));
  }

  lemma NotYetOpen(fs: seq<Fragment>, i: nat)
    requires FirstPiece(fs, i)
    ensures CallSlot(fs[i].key) !in Opened(fs[..i])
  {
    OpensWhen(fs[..i], CallSlot(fs[i].key));
  }

  predicate OfCall(f: Fragment, key: int) {
    f.CallPiece? && f.key == key
  }

  /** Fragment i carries the last id the call was given. */
  ghost predicate LastId(fs: seq<Fragment>, key: int, i: int) {
    0 <= i < |fs| && OfCall(fs[i], key) && fs[i].id != "" && forall h :: i < h < |fs| && OfCall(fs[h], key) ==> fs[h].id == ""
  }

  ghost predicate LastName(fs: seq<Fragment>, key: int, i: int) {
    0 <= i < |fs| && OfCall(fs[i], key) && fs[i].name != "" && forall h :: i < h < |fs| && OfCall(fs[h], key) ==> fs[h].name == ""
  }

  /** A call's final id is the last one any of its fragments carried, or none. */
  lemma {:induction false} LastIdCounts(fs: seq<Fragment>, key: int)
    ensures if IdOf(fs, key) == "" then forall h :: 0 <= h < |fs| && OfCall(fs[h], key) ==> fs[h].id == ""
            else exists i :: LastId(fs, key, i) && fs[i].id == IdOf(fs, key)
  {
    if fs != [] {
      var n := |fs| - 1;
      LastIdCounts(fs[..n], key);
      if OfCall(fs[n], key) && fs[n].id != "" {
        assert LastId(fs, key, n);
      } else if IdOf(fs[..n], key) != "" {
        var i :| LastId(fs[..n], key, i) && fs[..n][i].id == IdOf(fs[..n], key);
        assert LastId(fs, key, i);
      }
    }
  }

  /** And so is its final name. */
  lemma {:induction false} LastNameCounts(fs: seq<Fragment>, key: int)
    ensures if NameOf(fs, key) == "" then forall h :: 0 <= h < |fs| && OfCall(fs[h], key) ==> fs[h].name == ""
            else exists i :: LastName(fs, key, i) && fs[i].name == NameOf(fs, key)
  {
    if fs != [] {
      var n := |fs| - 1;
      LastNameCounts(fs[..n], key);
      if OfCall(fs[n], key) && fs[n].name != "" {
        assert LastName(fs, key, n);
      } else if NameOf(fs[..n], key) != "" {
        var i :| LastName(fs[..n], key, i) && fs[..n][i].name == NameOf(fs[..n], key);
        assert LastName(fs, key, i);
      }
    }
  }

  /** A call closes as exactly the item the output lists, under its final id and name. */
  lemma {:induction false} ClosesAs(fs: seq<Fragment>, keys: seq<int>, key: int)
    requires key in keys && forall k :: k in keys ==> CallSlot(k) in Opened(fs)
    ensures var j := Place(Opened(fs), CallSlot(key));
      var id := IdOf(fs, key);
      var item := CallItem(ItemId("fc_", j), "completed", if id == "" then Minted(j) else Given(id), NameOf(fs, key), Content(fs, CallSlot(key)));
      ItemDone(j, item) in CloseCalls(fs, keys) && item in FinalCalls(fs, keys)
  {
    var n := |keys| - 1;
    if key in keys[..n] {
      ClosesAs(fs, keys[..n], key);
    } else {
      assert keys == keys[..n] + [keys[n]] && keys[n] == key;
      assert CloseCall(fs, key)[1] in CloseCall(fs, key);
    }
  }
}
