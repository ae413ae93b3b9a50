/** Streaming deltas are redundant exactly when a later event overwrites what they appended to. */
module SessionDeltas {
  import opened Wrappers
  import opened SessionProjection
  import opened SessionInvariants

  /** The text that a delta appends to. Text, reasoning and tool input belong to an item of the
      open assistant, a compaction summary to the latest compaction. */
  datatype Slot = TextSlot | ReasoningSlot(id: string) | ToolSlot(id: string) | CompactionSlot

  function SlotOf(e: Event): Option<Slot> {
    match e
    case TextDelta(_) => Some(TextSlot)
    case ReasoningDelta(id, _) => Some(ReasoningSlot(id))
    case ToolInputDelta(id, _) => Some(ToolSlot(id))
    case CompactionDelta(_) => Some(CompactionSlot)
    case _ => None
  }

  /** The event replaces the text of the slot. */
  predicate Overwrites(e: Event, slot: Slot) {
    match slot
    case TextSlot => e.TextEnded?
    case ReasoningSlot(id) => e.ReasoningEnded? && e.reasoningID == id
    case ToolSlot(id) => e.ToolCalled? && e.callID == id
    case CompactionSlot => e.CompactionEnded?
  }

  /** After the event the slot names another text, or none. */
  predicate Leaves(e: Event, slot: Slot) {
    match slot
    case TextSlot => e.TextStarted? || EndsStep(e)
    case ReasoningSlot(id) => (e.ReasoningStarted? && e.reasoningID == id) || EndsStep(e)
    case ToolSlot(id) => (e.ToolInputStarted? && e.callID == id) || EndsStep(e)
    case CompactionSlot => e.CompactionStarted?
  }

  predicate EndsStep(e: Event) { e.StepStarted? || e.StepEnded? || e.StepFailed? }

  /** Before the slot comes to name something else, some event of the rest of the log overwrites it. */
  predicate Superseded(slot: Slot, rest: seq<Event>) {
    rest != [] && (Overwrites(rest[0], slot) || (!Leaves(rest[0], slot) && Superseded(slot, rest[1..])))
  }

  // ---------------------------------------------------------------- blanking a slot

  function SlotItem(slot: Slot): Item -> bool {
    match slot
    case ReasoningSlot(id) => ReasoningWith(id)
    case ToolSlot(id) => ToolWith(id)
    case _ => IsText
  }

  function BlankedItem(x: Item): Item {
    match x
    case TextItem(_) => TextItem("")
    case ReasoningItem(id, _) => ReasoningItem(id, "")
    case ToolItem(_, _, _, state, _, _, _) => if state.Pending? then x.(state := Pending("")) else x
  }

  function BlankItem(): Item -> Item { (x: Item) => BlankedItem(x) }

  function SlotMessage(slot: Slot): Message -> bool {
    if slot == CompactionSlot then IsCompaction else IsOpen
  }

  function BlankedMessage(slot: Slot, m: Message): Message {
    if slot == CompactionSlot then (if m.CompactionMessage? then m.(summary := "") else m)
    else if m.AssistantMessage? then m.(content := BlankedContent(slot, m.content))
    else m
  }

  function BlankedContent(slot: Slot, content: seq<Item>): seq<Item> {
    EditLast(content, SlotItem(slot), BlankItem())
  }

  function BlankMessage(slot: Slot): Message -> Message { (m: Message) => BlankedMessage(slot, m) }

  /** The state with the text of the slot erased: two states that agree on it are equal up to that
      one open text. */
  function Blank(slot: Slot, messages: seq<Message>): seq<Message> {
    EditLast(messages, SlotMessage(slot), BlankMessage(slot))
  }

  // ---------------------------------------------------------------- edits and blanks commute

  lemma LastIndexIs<T>(s: seq<T>, p: T -> bool, i: int)
    requires -1 <= i < |s| && (i >= 0 ==> p(s[i])) && forall j :: i < j < |s| ==> !p(s[j])
    ensures LastIndex(s, p) == i
  {
  }

  lemma LastIndexAgrees<T>(s: seq<T>, t: seq<T>, p: T -> bool)
    requires |s| == |t| && forall i :: 0 <= i < |s| ==> p(s[i]) == p(t[i])
    ensures LastIndex(s, p) == LastIndex(t, p)
  {
    LastIndexIs(t, p, LastIndex(s, p));
  }

  /** Blank, edit and blank is edit and blank, if neither changes what the other looks for. */
  lemma EditBlanked<T(!new)>(s: seq<T>, p: T -> bool, f: T -> T, q: T -> bool, b: T -> T)
    requires forall x: T :: p(b(x)) == p(x) && q(b(x)) == q(x) && q(f(x)) == q(x)
    requires forall x: T :: b(f(b(x))) == b(f(x)) && b(b(x)) == b(x)
    ensures EditLast(EditLast(EditLast(s, q, b), p, f), q, b) == EditLast(EditLast(s, p, f), q, b)
  {
    var blanked, edited := EditLast(s, q, b), EditLast(s, p, f);
    var both := EditLast(blanked, p, f);
    LastIndexAgrees(s, blanked, p);
    LastIndexAgrees(s, blanked, q);
    LastIndexAgrees(s, edited, q);
    LastIndexAgrees(s, both, q);
  }

  /** An edit that forgets what the blank erases is the same after the blank. */
  lemma EditForgets<T(!new)>(s: seq<T>, p: T -> bool, f: T -> T, b: T -> T)
    requires forall x: T :: p(b(x)) == p(x) && f(b(x)) == f(x)
    ensures EditLast(EditLast(s, p, b), p, f) == EditLast(s, p, f)
  {
    LastIndexAgrees(s, EditLast(s, p, b), p);
  }

  lemma EditLastPush<T>(s: seq<T>, x: T, p: T -> bool, f: T -> T)
    requires !p(x)
    ensures EditLast(s + [x], p, f) == EditLast(s, p, f) + [x]
  {
    LastIndexIs(s + [x], p, LastIndex(s, p));
  }

  // ---------------------------------------------------------------- one event on a blanked state

  lemma ItemFacts(slot: Slot, e: Event, x: Item)
    ensures EditsItem(e) ==> TargetItem(e)(BlankedItem(x)) == TargetItem(e)(x)
    ensures SlotItem(slot)(BlankedItem(x)) == SlotItem(slot)(x) == SlotItem(slot)(EditedItem(e, x))
    ensures BlankedItem(EditedItem(e, BlankedItem(x))) == BlankedItem(EditedItem(e, x))
    ensures BlankedItem(BlankedItem(x)) == BlankedItem(x)
  {
    EditKeepsSlot(slot, e, x);
    EditAfterBlank(e, x);
  }

  lemma EditKeepsSlot(slot: Slot, e: Event, x: Item)
    ensures SlotItem(slot)(EditedItem(e, x)) == SlotItem(slot)(x)
  {
  }

  lemma EditAfterBlank(e: Event, x: Item)
    ensures BlankedItem(EditedItem(e, BlankedItem(x))) == BlankedItem(EditedItem(e, x))
    ensures BlankedItem(BlankedItem(x)) == BlankedItem(x)
  {
  }

  lemma BlankContent(slot: Slot, content: seq<Item>, e: Event)
    requires slot != CompactionSlot && !Leaves(e, slot)
    ensures BlankedContent(slot, EditedContent(e, BlankedContent(slot, content)))
         == BlankedContent(slot, EditedContent(e, content))
  {
    var q, b := SlotItem(slot), BlankItem();
    forall x: Item
      ensures q(b(x)) == q(x) == q(EditItem(e)(x)) && b(b(x)) == b(x)
      ensures b(EditItem(e)(b(x))) == b(EditItem(e)(x))
      ensures EditsItem(e) ==> TargetItem(e)(b(x)) == TargetItem(e)(x)
    {
      ItemFacts(slot, e, x);
    }
    if PushesItem(e) {
      EditLastPush(content, NewItem(e), q, b);
      EditLastPush(BlankedContent(slot, content), NewItem(e), q, b);
      BlankTwice(content, q, b);
    } else if EditsItem(e) {
      EditBlanked(content, TargetItem(e), EditItem(e), q, b);
    } else {
      BlankTwice(content, q, b);
    }
  }

  lemma BlankTwice(content: seq<Item>, q: Item -> bool, b: Item -> Item)
    requires b == BlankItem() && forall x: Item :: q(b(x)) == q(x)
    ensures EditLast(EditLast(content, q, b), q, b) == EditLast(content, q, b)
  {
    EditForgets(content, q, b, b);
  }

  lemma MessageFacts(slot: Slot, e: Event, m: Message)
    requires !Leaves(e, slot) && EditsMessage(e)
    ensures TargetMessage(e)(BlankedMessage(slot, m)) == TargetMessage(e)(m)
    ensures SlotMessage(slot)(BlankedMessage(slot, m)) == SlotMessage(slot)(m) == SlotMessage(slot)(EditedMessage(e, m))
    ensures BlankedMessage(slot, EditedMessage(e, BlankedMessage(slot, m))) == BlankedMessage(slot, EditedMessage(e, m))
  {
    EditKeepsSlotMessage(slot, e, m);
    MessageEditAfterBlank(slot, e, m);
  }

  lemma EditKeepsSlotMessage(slot: Slot, e: Event, m: Message)
    requires !Leaves(e, slot) && EditsMessage(e)
    ensures SlotMessage(slot)(EditedMessage(e, m)) == SlotMessage(slot)(m)
  {
  }

  lemma MessageEditAfterBlank(slot: Slot, e: Event, m: Message)
    requires !Leaves(e, slot) && EditsMessage(e)
    ensures BlankedMessage(slot, EditedMessage(e, BlankedMessage(slot, m))) == BlankedMessage(slot, EditedMessage(e, m))
  {
    if m.AssistantMessage? && slot != CompactionSlot {
      BlankContent(slot, m.content, e);
    }
  }

  /** An event that does not leave the slot does the same to two states equal up to the slot. */
  lemma BlankApply(slot: Slot, s: seq<Message>, e: Event)
    requires !Leaves(e, slot)
    ensures Blank(slot, Apply(Blank(slot, s), e)) == Blank(slot, Apply(s, e))
  {
    var q, b := SlotMessage(slot), BlankMessage(slot);
    var edited, blankedFirst := s, Blank(slot, s);
    if EditsMessage(e) {
      BlankEdit(slot, s, e);
      edited := EditLast(s, TargetMessage(e), EditMessage(e));
      blankedFirst := EditLast(blankedFirst, TargetMessage(e), EditMessage(e));
    } else {
      BlankIdempotent(slot, s);
    }
    if AppendsMessage(e) {
      EditLastPush(edited, NewMessage(e), q, b);
      EditLastPush(blankedFirst, NewMessage(e), q, b);
    }
  }

  lemma BlankEdit(slot: Slot, s: seq<Message>, e: Event)
    requires !Leaves(e, slot) && EditsMessage(e)
    ensures Blank(slot, EditLast(Blank(slot, s), TargetMessage(e), EditMessage(e)))
         == Blank(slot, EditLast(s, TargetMessage(e), EditMessage(e)))
  {
    var q, b := SlotMessage(slot), BlankMessage(slot);
    forall m: Message
      ensures TargetMessage(e)(b(m)) == TargetMessage(e)(m)
      ensures q(b(m)) == q(m) == q(EditMessage(e)(m)) && b(EditMessage(e)(b(m))) == b(EditMessage(e)(m))
      ensures b(b(m)) == b(m)
    {
      MessageFacts(slot, e, m);
      MessageBlankTwice(slot, m);
    }
    EditBlanked(s, TargetMessage(e), EditMessage(e), q, b);
  }

  lemma BlankIdempotent(slot: Slot, s: seq<Message>)
    ensures Blank(slot, Blank(slot, s)) == Blank(slot, s)
  {
    var q, b := SlotMessage(slot), BlankMessage(slot);
    forall m: Message
      ensures q(b(m)) == q(m) && b(b(m)) == b(m)
    {
      MessageBlankTwice(slot, m);
    }
    EditForgets(s, q, b, b);
  }

  lemma MessageBlankTwice(slot: Slot, m: Message)
    ensures BlankedMessage(slot, BlankedMessage(slot, m)) == BlankedMessage(slot, m)
  {
    if m.AssistantMessage? && slot != CompactionSlot {
      BlankContent(slot, m.content, NotProjected);
    }
  }

  /** An overwriting event makes them equal. */
  lemma OverwriteForgets(slot: Slot, s: seq<Message>, e: Event)
    requires Overwrites(e, slot)
    ensures Apply(Blank(slot, s), e) == Apply(s, e)
  {
    var q, b, f := SlotMessage(slot), BlankMessage(slot), EditMessage(e);
    forall m: Message
      ensures q(b(m)) == q(m) && f(b(m)) == f(m)
    {
      OverwriteMessage(slot, m, e);
    }
    EditForgets(s, q, f, b);
    assert TargetMessage(e) == q;
  }

  lemma OverwriteMessage(slot: Slot, m: Message, e: Event)
    requires Overwrites(e, slot)
    ensures EditedMessage(e, BlankedMessage(slot, m)) == EditedMessage(e, m)
  {
    if m.AssistantMessage? && slot != CompactionSlot {
      OverwriteContent(slot, m.content, e);
    }
  }

  lemma OverwriteContent(slot: Slot, content: seq<Item>, e: Event)
    requires slot != CompactionSlot && Overwrites(e, slot)
    ensures EditedContent(e, BlankedContent(slot, content)) == EditedContent(e, content)
  {
    var p, b, f := SlotItem(slot), BlankItem(), EditItem(e);
    assert TargetItem(e) == p;
    forall x: Item
      ensures p(b(x)) == p(x)
    {
      ItemFacts(slot, e, x);
    }
    OverwriteItems(slot, content, e);
  }

  lemma OverwriteItems(slot: Slot, content: seq<Item>, e: Event)
    requires slot != CompactionSlot && Overwrites(e, slot)
    ensures EditLast(EditLast(content, SlotItem(slot), BlankItem()), SlotItem(slot), EditItem(e))
         == EditLast(content, SlotItem(slot), EditItem(e))
  {
    var p, blanked := SlotItem(slot), EditLast(content, SlotItem(slot), BlankItem());
    LastIndexAgrees(content, blanked, p);
  }

  /** A delta changes nothing but its own slot. */
  lemma DeltaFillsSlot(slot: Slot, s: seq<Message>, e: Event)
    requires SlotOf(e) == Some(slot)
    ensures Blank(slot, Apply(s, e)) == Blank(slot, s)
  {
    var q, b, f := SlotMessage(slot), BlankMessage(slot), EditMessage(e);
    forall m: Message
      ensures q(f(m)) == q(m) && b(f(m)) == b(m)
    {
      if m.AssistantMessage? && slot != CompactionSlot {
        DeltaInContent(slot, m.content, e);
      }
    }
    EditForgets(s, q, b, f);
  }

  lemma DeltaInContent(slot: Slot, content: seq<Item>, e: Event)
    requires slot != CompactionSlot && SlotOf(e) == Some(slot)
    ensures BlankedContent(slot, EditedContent(e, content)) == BlankedContent(slot, content)
  {
    var p := SlotItem(slot);
    assert TargetItem(e) == p;
    LastIndexAgrees(content, EditedContent(e, content), p);
  }

  // ---------------------------------------------------------------- superseded deltas are redundant

  /** Two states equal up to a slot reach the same state once the slot is overwritten. */
  lemma {:induction false} Coincide(slot: Slot, s: seq<Message>, t: seq<Message>, rest: seq<Event>)
    requires Blank(slot, s) == Blank(slot, t) && Superseded(slot, rest)
    ensures RunFrom(s, rest) == RunFrom(t, rest)
    decreases |rest|
  {
    var e := rest[0];
    if Overwrites(e, slot) {
      OverwriteForgets(slot, s, e);
      OverwriteForgets(slot, t, e);
    } else {
      BlankApply(slot, s, e);
      BlankApply(slot, t, e);
      Coincide(slot, Apply(s, e), Apply(t, e), rest[1..]);
    }
  }

  /** `thin` is `full` without some of its superseded deltas. */
  predicate Thins(full: seq<Event>, thin: seq<Event>)
    decreases |full|
  {
    if full == [] then thin == []
    else
      || (thin != [] && full[0] == thin[0] && Thins(full[1..], thin[1..]))
      || (SlotOf(full[0]).Some? && Superseded(SlotOf(full[0]).value, full[1..]) && Thins(full[1..], thin))
  }

  /** Dropping any superseded deltas, from any log and any starting state, changes nothing. */
  lemma {:induction false} ThinningKeepsTheProjection(s: seq<Message>, full: seq<Event>, thin: seq<Event>)
    requires Thins(full, thin)
    ensures RunFrom(s, full) == RunFrom(s, thin)
    decreases |full|
  {
    if full == [] {
    } else {
      var e := full[0];
      if thin != [] && e == thin[0] && Thins(full[1..], thin[1..]) {
        ThinningKeepsTheProjection(Apply(s, e), full[1..], thin[1..]);
      } else {
        var slot := SlotOf(e).value;
        DeltaFillsSlot(slot, s, e);
        Coincide(slot, Apply(s, e), s, full[1..]);
        ThinningKeepsTheProjection(s, full[1..], thin);
      }
    }
  }

  /** In particular all of them can go. */
  function Compacted(log: seq<Event>): seq<Event> {
    if log == [] then []
    else if SlotOf(log[0]).Some? && Superseded(SlotOf(log[0]).value, log[1..]) then Compacted(log[1..])
    else [log[0]] + Compacted(log[1..])
  }

  lemma {:induction false} CompactedThins(log: seq<Event>)
    ensures Thins(log, Compacted(log))
  {
    if log == [] {
    } else {
      CompactedThins(log[1..]);
    }
  }

  lemma CompactedProjection(log: seq<Event>)
    ensures Project(Compacted(log)) == Project(log)
  {
    CompactedThins(log);
    ThinningKeepsTheProjection([], log, Compacted(log));
  }

  // ---------------------------------------------------------------- and no other delta is

  /** Where the slot is: a message, and the item of it unless the slot is a compaction summary. */
  datatype Place = Place(m: int, k: int)

  function PlaceOf(slot: Slot, s: seq<Message>): Place {
    var m := LastIndex(s, SlotMessage(slot));
    var inContent := m >= 0 && slot != CompactionSlot && s[m].AssistantMessage?;
    Place(m, if inContent then LastIndex(s[m].content, SlotItem(slot)) else -1)
  }

  /** The place holds a text of the slot's kind and id. */
  predicate Fits(slot: Slot, s: seq<Message>, at: Place) {
    if slot == CompactionSlot then 0 <= at.m < |s| && IsCompaction(s[at.m])
    else 0 <= at.m && 0 <= at.k && IsItem(s, at.m, at.k) && SlotItem(slot)(s[at.m].content[at.k])
  }

  /** A delta for the slot would append to something: the open assistant has such an item, for tool
      input a pending one, or there is a compaction. */
  predicate Live(slot: Slot, s: seq<Message>) {
    var at := PlaceOf(slot, s);
    && Fits(slot, s, at)
    && (slot.ToolSlot? ==> s[at.m].content[at.k].state.Pending?)
  }

  function ItemLength(x: Item): nat {
    match x
    case TextItem(text) => |text|
    case ReasoningItem(_, text) => |text|
    case ToolItem(_, _, _, state, _, _, _) => if state.Pending? then |state.partialInput| else 0
  }

  function Length(slot: Slot, s: seq<Message>, at: Place): nat
    requires Fits(slot, s, at)
  {
    if slot == CompactionSlot then |s[at.m].summary| else ItemLength(s[at.m].content[at.k])
  }

  /** How much an event appends to the slot. */
  function Added(slot: Slot, e: Event): nat {
    if SlotOf(e) != Some(slot) then 0
    else match e
      case TextDelta(delta) => |delta|
      case ReasoningDelta(_, delta) => |delta|
      case ToolInputDelta(_, delta) => |delta|
      case CompactionDelta(text) => |text|
      case _ => 0
  }

  lemma ItemGrows(slot: Slot, x: Item, e: Event)
    requires slot != CompactionSlot && EditsItem(e) && !Overwrites(e, slot) && SlotItem(slot)(x)
    requires slot.ToolSlot? ==> x.state.Pending?
    ensures var y := EditedItem(e, x);
      && SlotItem(slot)(y)
      && (TargetItem(e)(x) ==> ItemLength(y) == ItemLength(x) + Added(slot, e) && (slot.ToolSlot? ==> y.state.Pending?))
    ensures SlotOf(e) == Some(slot) ==> TargetItem(e) == SlotItem(slot)
  {
  }

  lemma LiveGrowsInContent(slot: Slot, content: seq<Item>, e: Event)
    requires slot != CompactionSlot && !Leaves(e, slot) && !Overwrites(e, slot)
    requires var k := LastIndex(content, SlotItem(slot)); k >= 0 && (slot.ToolSlot? ==> content[k].state.Pending?)
    ensures var k := LastIndex(content, SlotItem(slot));
      var after := EditedContent(e, content);
      && LastIndex(after, SlotItem(slot)) == k
      && (slot.ToolSlot? ==> after[k].state.Pending?)
      && ItemLength(after[k]) == ItemLength(content[k]) + Added(slot, e)
  {
    if PushesItem(e) {
      LastIndexIs(EditedContent(e, content), SlotItem(slot), LastIndex(content, SlotItem(slot)));
    } else if EditsItem(e) {
      LiveGrowsByEdit(slot, content, e);
    }
  }

  lemma LiveGrowsByEdit(slot: Slot, content: seq<Item>, e: Event)
    requires slot != CompactionSlot && EditsItem(e) && !Overwrites(e, slot)
    requires var k := LastIndex(content, SlotItem(slot)); k >= 0 && (slot.ToolSlot? ==> content[k].state.Pending?)
    ensures var k, after := LastIndex(content, SlotItem(slot)), EditLast(content, TargetItem(e), EditItem(e));
      && LastIndex(after, SlotItem(slot)) == k
      && (slot.ToolSlot? ==> after[k].state.Pending?)
      && ItemLength(after[k]) == ItemLength(content[k]) + Added(slot, e)
  {
    var k, after := LastIndex(content, SlotItem(slot)), EditLast(content, TargetItem(e), EditItem(e));
    ItemGrows(slot, content[k], e);
    forall i | 0 <= i < |content|
      ensures SlotItem(slot)(after[i]) == SlotItem(slot)(content[i])
    {
      EditKeepsSlot(slot, e, content[i]);
    }
    LastIndexAgrees(content, after, SlotItem(slot));
  }

  lemma SlotMessageStays(slot: Slot, s: seq<Message>, e: Event)
    requires !Leaves(e, slot)
    ensures LastIndex(Apply(s, e), SlotMessage(slot)) == LastIndex(s, SlotMessage(slot))
  {
    var after, m := Apply(s, e), LastIndex(s, SlotMessage(slot));
    forall i | 0 <= i < |s|
      ensures SlotMessage(slot)(after[i]) == SlotMessage(slot)(s[i])
    {
      MessageAfter(s, e, i);
      if EditsMessage(e) {
        MessageFacts(slot, e, s[i]);
      }
    }
    assert AppendsMessage(e) ==> !SlotMessage(slot)(NewMessage(e));
    LastIndexIs(after, SlotMessage(slot), m);
  }

  /** While the slot is neither left nor overwritten it stays where it is, and grows by exactly what
      its deltas say. */
  lemma LiveGrows(slot: Slot, s: seq<Message>, e: Event)
    requires Live(slot, s) && !Leaves(e, slot) && !Overwrites(e, slot)
    ensures var after := Apply(s, e);
      && Live(slot, after) && PlaceOf(slot, after) == PlaceOf(slot, s)
      && Length(slot, after, PlaceOf(slot, s)) == Length(slot, s, PlaceOf(slot, s)) + Added(slot, e)
  {
    SlotMessageStays(slot, s, e);
    if slot == CompactionSlot {
      CompactionGrows(s, e);
    } else {
      ItemSlotGrows(slot, s, e);
    }
  }

  lemma CompactionGrows(s: seq<Message>, e: Event)
    requires Live(CompactionSlot, s) && !e.CompactionStarted? && !e.CompactionEnded?
    ensures var m := PlaceOf(CompactionSlot, s).m; var after := Apply(s, e);
      && m < |after| && IsCompaction(after[m])
      && |after[m].summary| == |s[m].summary| + Added(CompactionSlot, e)
  {
    MessageAfter(s, e, PlaceOf(CompactionSlot, s).m);
  }

  lemma ItemSlotGrows(slot: Slot, s: seq<Message>, e: Event)
    requires slot != CompactionSlot && Live(slot, s) && !Leaves(e, slot) && !Overwrites(e, slot)
    ensures var at := PlaceOf(slot, s); var after := Apply(s, e);
      && IsItem(after, at.m, at.k)
      && LastIndex(after[at.m].content, SlotItem(slot)) == at.k
      && (slot.ToolSlot? ==> after[at.m].content[at.k].state.Pending?)
      && ItemLength(after[at.m].content[at.k]) == ItemLength(s[at.m].content[at.k]) + Added(slot, e)
  {
    var at := PlaceOf(slot, s);
    ContentAfter(s, e, at.m);
    LiveGrowsInContent(slot, s[at.m].content, e);
  }

  /** The place is no longer the slot's: the step is over, or something later took the slot. */
  predicate Left(slot: Slot, s: seq<Message>, at: Place) {
    && Fits(slot, s, at)
    && if slot == CompactionSlot then exists j :: at.m < j < |s| && IsCompaction(s[j])
       else s[at.m].completed.Some? || exists j :: at.k < j < |s[at.m].content| && SlotItem(slot)(s[at.m].content[j])
  }

  lemma LeavingKeepsText(slot: Slot, s: seq<Message>, e: Event)
    requires Live(slot, s) && Leaves(e, slot)
    ensures var at := PlaceOf(slot, s);
      Left(slot, Apply(s, e), at) && Length(slot, Apply(s, e), at) == Length(slot, s, at)
  {
    var at := PlaceOf(slot, s);
    if slot == CompactionSlot {
      CompactionLeft(s, e, at.m);
    } else if PushesItem(e) {
      NewItemTakes(slot, s, e, at.m);
      assert SlotItem(slot)(Apply(s, e)[at.m].content[|s[at.m].content|]);
    } else {
      StepEnds(s, e, at.m);
    }
  }

  lemma NewItemTakes(slot: Slot, s: seq<Message>, e: Event, m: nat)
    requires slot != CompactionSlot && PushesItem(e) && Leaves(e, slot) && m < |s| && m == LastIndex(s, IsOpen)
    ensures |s| <= |Apply(s, e)| && Apply(s, e)[m].AssistantMessage?
    ensures Apply(s, e)[m].content == s[m].content + [NewItem(e)] && SlotItem(slot)(NewItem(e))
  {
    ContentAfter(s, e, m);
  }

  lemma CompactionLeft(s: seq<Message>, e: Event, m: nat)
    requires m < |s| && IsCompaction(s[m]) && e.CompactionStarted?
    ensures Left(CompactionSlot, Apply(s, e), Place(m, -1)) && Apply(s, e)[m] == s[m]
  {
    MessageAfter(s, e, m);
    assert IsCompaction(Apply(s, e)[|s|]);
  }

  lemma StepEnds(s: seq<Message>, e: Event, m: nat)
    requires EndsStep(e) && m < |s| && m == LastIndex(s, IsOpen)
    ensures |s| <= |Apply(s, e)| && Apply(s, e)[m].AssistantMessage?
    ensures Apply(s, e)[m].completed.Some? && Apply(s, e)[m].content == s[m].content
  {
    MessageAfter(s, e, m);
  }

  /** What has been left is never changed again. */
  lemma LeftStays(slot: Slot, s: seq<Message>, e: Event, at: Place)
    requires Left(slot, s, at)
    ensures Left(slot, Apply(s, e), at) && Length(slot, Apply(s, e), at) == Length(slot, s, at)
  {
    if slot == CompactionSlot {
      var j :| at.m < j < |s| && IsCompaction(s[j]);
      CompactionStays(s, e, at.m, j);
      assert IsCompaction(Apply(s, e)[j]);
    } else if s[at.m].completed.Some? {
      CompletedStays(s, e, at.m);
    } else {
      var j :| at.k < j < |s[at.m].content| && SlotItem(slot)(s[at.m].content[j]);
      LeftInOpenStep(slot, s, e, at, j);
      assert SlotItem(slot)(Apply(s, e)[at.m].content[j]);
    }
  }

  lemma CompactionStays(s: seq<Message>, e: Event, m: nat, j: nat)
    requires m < j < |s| && IsCompaction(s[m]) && IsCompaction(s[j])
    ensures |s| <= |Apply(s, e)| && Apply(s, e)[m] == s[m] && IsCompaction(Apply(s, e)[j])
  {
    MessageAfter(s, e, m);
    MessageAfter(s, e, j);
  }

  lemma CompletedStays(s: seq<Message>, e: Event, m: nat)
    requires m < |s| && s[m].AssistantMessage? && s[m].completed.Some?
    ensures |s| <= |Apply(s, e)| && Apply(s, e)[m] == s[m]
  {
    MessageAfter(s, e, m);
  }

  lemma LeftInOpenStep(slot: Slot, s: seq<Message>, e: Event, at: Place, j: int)
    requires slot != CompactionSlot && Fits(slot, s, at)
    requires at.k < j < |s[at.m].content| && SlotItem(slot)(s[at.m].content[j])
    ensures IsItem(Apply(s, e), at.m, j) && SlotItem(slot)(Apply(s, e)[at.m].content[j])
    ensures Apply(s, e)[at.m].content[at.k] == s[at.m].content[at.k]
  {
    ItemAfter(s, e, at.m, at.k);
    ItemAfter(s, e, at.m, j);
    ItemFacts(slot, e, s[at.m].content[j]);
  }

  lemma {:induction false} LeftDiffersForever(slot: Slot, s: seq<Message>, t: seq<Message>, at: Place, rest: seq<Event>)
    requires Left(slot, s, at) && Left(slot, t, at) && Length(slot, s, at) != Length(slot, t, at)
    ensures RunFrom(s, rest) != RunFrom(t, rest)
    decreases |rest|
  {
    if rest == [] {
    } else {
      LeftStays(slot, s, rest[0], at);
      LeftStays(slot, t, rest[0], at);
      LeftDiffersForever(slot, Apply(s, rest[0]), Apply(t, rest[0]), at, rest[1..]);
    }
  }

  /** Two states that differ in the length of a live slot differ for good unless it is overwritten. */
  lemma {:induction false} Differ(slot: Slot, s: seq<Message>, t: seq<Message>, rest: seq<Event>)
    requires Live(slot, s) && Live(slot, t) && PlaceOf(slot, s) == PlaceOf(slot, t)
    requires Length(slot, s, PlaceOf(slot, s)) != Length(slot, t, PlaceOf(slot, t))
    requires !Superseded(slot, rest)
    ensures RunFrom(s, rest) != RunFrom(t, rest)
    decreases |rest|
  {
    if rest == [] {
    } else {
      var e := rest[0];
      if Leaves(e, slot) {
        LeavingKeepsText(slot, s, e);
        LeavingKeepsText(slot, t, e);
        LeftDiffersForever(slot, Apply(s, e), Apply(t, e), PlaceOf(slot, s), rest[1..]);
      } else {
        LiveGrows(slot, s, e);
        LiveGrows(slot, t, e);
        Differ(slot, Apply(s, e), Apply(t, e), rest[1..]);
      }
    }
  }

  lemma DeadDelta(slot: Slot, s: seq<Message>, e: Event)
    requires SlotOf(e) == Some(slot) && (!Live(slot, s) || Added(slot, e) == 0)
    ensures Apply(s, e) == s
  {
    var m := LastIndex(s, SlotMessage(slot));
    if m >= 0 && slot != CompactionSlot {
      DeadInContent(slot, s[m].content, e);
      assert EditedMessage(e, s[m]) == s[m];
    } else if m >= 0 {
      assert s[m].summary + "" == s[m].summary;
      assert EditedMessage(e, s[m]) == s[m];
    }
  }

  lemma DeadInContent(slot: Slot, content: seq<Item>, e: Event)
    requires slot != CompactionSlot && SlotOf(e) == Some(slot)
    requires var k := LastIndex(content, SlotItem(slot));
      k < 0 || Added(slot, e) == 0 || (slot.ToolSlot? && !content[k].state.Pending?)
    ensures EditedContent(e, content) == content
  {
    var k := LastIndex(content, SlotItem(slot));
    assert TargetItem(e) == SlotItem(slot);
    if k >= 0 {
      assert EditedItem(e, content[k]) == content[k];
    }
  }

  /** Exactly the deltas that say nothing, have nothing to append to, or are superseded can go
      without a trace: the projection is the same with and without them. */
  lemma DeltaRedundantIff(s: seq<Message>, e: Event, rest: seq<Event>)
    requires SlotOf(e).Some?
    ensures var slot := SlotOf(e).value;
      RunFrom(s, [e] + rest) == RunFrom(s, rest) <==>
      Added(slot, e) == 0 || !Live(slot, s) || Superseded(slot, rest)
  {
    var slot := SlotOf(e).value;
    assert ([e] + rest)[1..] == rest;
    if Added(slot, e) == 0 || !Live(slot, s) {
      DeadDelta(slot, s, e);
    } else if Superseded(slot, rest) {
      DeltaFillsSlot(slot, s, e);
      Coincide(slot, Apply(s, e), s, rest);
    } else {
      LiveGrows(slot, s, e);
      Differ(slot, Apply(s, e), s, rest);
    }
  }
}
