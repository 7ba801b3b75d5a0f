/**
 Task cards as the sender renders them, as far as the streaming of a running card
 depends on it.  The JSON, the localized labels and the colours are left out: a
 header is what its tables are looked up with, a list is kept as its items, and the
 body of any other card is kept whole.
 */
module Cards {
  import opened Tables

  datatype CardKind = CardStart | CardSuccess | CardFailure | CardRestarting | CardRoutingError | CardThreadSelection | CardRunningConflict

  datatype Layout = NoLayout | RunningLayout | ResultLayout

  datatype Milestone = Milestone(text: string, kind: string)

  datatype TaskPresentation = TaskPresentation(
    layout: Layout,
    stage: string,
    activity: string,
    userInputs: seq<string>,
    milestones: seq<Milestone>,
    processingDetail: string,
    conclusion: string,
    changes: seq<string>,
    verification: seq<string>)

  datatype Field = Field(title: string, value: string)

  datatype CardAction = CardAction(id: string, text: string, style: string, value: map<string, string>)

  datatype CardOption = CardOption(title: string, detail: string, meta: string, action: CardAction)

  datatype Message = Message(
    chat: Id,
    replyTo: Id,
    update: Id,
    maxAttempts: int,
    kind: CardKind,
    task: Id,
    status: string,
    title: string,
    subtitle: string,
    body: string,
    presentation: Option<TaskPresentation>,
    streamDetail: bool,
    fields: seq<Field>,
    options: seq<CardOption>,
    actions: seq<CardAction>)

  // ---- Rendering -----------------------------------------------------------------------

  datatype Cell = Stage(name: string) | Count(n: nat) | StatusLabel(kind: CardKind, status: string)

  datatype Heading = Activity | Inputs | MilestonesDone | Detail

  datatype Text = Plain(text: string) | Bullets(items: seq<string>)

  datatype Element =
    | Grid(cells: seq<Cell>)
    | Section(heading: Heading, content: Text, elementId: string)
    | Rest(presentation: Option<TaskPresentation>, fields: seq<Field>, markdown: string, options: seq<CardOption>)
    | Buttons(actions: seq<CardAction>)
    | Rule
    | FollowUpForm(action: CardAction)

  datatype Card = Card(kind: CardKind, status: string, title: string, subtitle: string, elements: seq<Element>)

  const DETAIL_ELEMENT := "task_stream_detail"

  const DEFAULT_STAGE := "执行中"

  const DEFAULT_ACTIVITY := "Codex 正在处理。"

  function Labels(milestones: seq<Milestone>): seq<string> {
    if milestones == [] then []
    else (if milestones[0].text != "" then [milestones[0].text] else []) + Labels(milestones[1..])
  }

  function RunningElements(kind: CardKind, status: string, streamDetail: bool, p: TaskPresentation): seq<Element> {
    [Grid([Stage(if p.stage == "" then DEFAULT_STAGE else p.stage), Count(|p.milestones|), StatusLabel(kind, status)])]
    + [Section(Activity, Plain(if p.activity == "" then DEFAULT_ACTIVITY else p.activity), "")]
    + (if |p.userInputs| > 0 then [Section(Inputs, Bullets(p.userInputs), "")] else [])
    + (if |p.milestones| > 0 then [Section(MilestonesDone, Bullets(Labels(p.milestones)), "")] else [])
    + (if p.processingDetail != "" || streamDetail then [Section(Detail, Plain(p.processingDetail), DETAIL_ELEMENT)] else [])
  }

  predicate IsFollowUp(action: CardAction) {
    action.id == "continue_submit" || action.id == "steer_submit"
  }

  function ButtonActions(actions: seq<CardAction>): seq<CardAction> {
    if actions == [] then []
    else (if IsFollowUp(actions[0]) then [] else [actions[0]]) + ButtonActions(actions[1..])
  }

  /** The last follow-up action wins. */
  function FollowUp(actions: seq<CardAction>): Option<CardAction> {
    if actions == [] then None
    else if IsFollowUp(actions[|actions| - 1]) then Some(actions[|actions| - 1])
    else FollowUp(actions[..|actions| - 1])
  }

  /** `appendCardActions`, given whether anything comes before. */
  function ActionElements(actions: seq<CardAction>, first: bool): seq<Element> {
    var buttons := if ButtonActions(actions) != [] then [Buttons(ButtonActions(actions))] else [];
    match FollowUp(actions)
    case None => buttons
    case Some(a) => buttons + (if first && buttons == [] then [] else [Rule]) + [FollowUpForm(a)]
  }

  /** The body of a card before its actions: a result card always has one, a generic card may be bare. */
  function BodyElements(msg: Message): seq<Element> {
    match msg.presentation
    case Some(p) =>
      if p.layout.RunningLayout? then RunningElements(msg.kind, msg.status, msg.streamDetail, p)
      else if p.layout.ResultLayout? then [Rest(msg.presentation, [], "", [])]
      else OtherElements(msg)
    case None => OtherElements(msg)
  }

  function OtherElements(msg: Message): seq<Element> {
    if msg.fields == [] && msg.body == "" && msg.options == [] then [] else [Rest(None, msg.fields, msg.body, msg.options)]
  }

  /** `BuildInteractiveCard`. */
  function Render(msg: Message): Card {
    var elements := BodyElements(msg);
    Card(msg.kind, msg.status, msg.title, msg.subtitle, elements + ActionElements(msg.actions, elements == []))
  }

  /** The milestones with a text, in order. */
  lemma {:induction false} LabelsAreTheTexts(milestones: seq<Milestone>, text: string)
    ensures text in Labels(milestones) <==> text != "" && exists i :: 0 <= i < |milestones| && milestones[i].text == text
  {
    if milestones != [] {
      LabelsAreTheTexts(milestones[1..], text);
      assert forall i :: 1 <= i < |milestones| ==> milestones[1..][i - 1] == milestones[i];
      if text in Labels(milestones[1..]) {
        var i :| 0 <= i < |milestones[1..]| && milestones[1..][i].text == text;
        assert milestones[i + 1].text == text;
      }
    }
  }

  /** A running card shows what the run is about: its activity, its inputs and milestones if there are any, its detail if there is one or it is streamed. */
  lemma RunningCardShowsItsParts(msg: Message, p: TaskPresentation)
    requires msg.presentation == Some(p) && p.layout.RunningLayout?
    ensures var elements := Render(msg).elements;
            && Section(Activity, Plain(if p.activity == "" then "Codex 正在处理。" else p.activity), "") in elements
            && Grid([Stage(if p.stage == "" then "执行中" else p.stage), Count(|p.milestones|), StatusLabel(msg.kind, msg.status)]) in elements
            && (p.userInputs != [] ==> Section(Inputs, Bullets(p.userInputs), "") in elements)
            && (p.milestones != [] ==> Section(MilestonesDone, Bullets(Labels(p.milestones)), "") in elements)
            && (p.processingDetail != "" || msg.streamDetail ==>
                  Section(Detail, Plain(p.processingDetail), "task_stream_detail") in elements)
  {
    hide ActionElements;
  }

  lemma {:induction false} ButtonsAreTheOtherActions(actions: seq<CardAction>, a: CardAction)
    ensures a in ButtonActions(actions) <==> a in actions && !IsFollowUp(a)
  {
    if actions != [] {
      ButtonsAreTheOtherActions(actions[1..], a);
      assert actions == [actions[0]] + actions[1..];
    }
  }

  lemma {:induction false} FollowUpIsTheLast(actions: seq<CardAction>, i: nat)
    requires i < |actions| && IsFollowUp(actions[i]) && forall j :: i < j < |actions| ==> !IsFollowUp(actions[j])
    ensures FollowUp(actions) == Some(actions[i])
  {
    if i < |actions| - 1 {
      FollowUpIsTheLast(actions[..|actions| - 1], i);
    }
  }

  /** Every action can be taken from the card: the last follow-up in a form, the others as buttons. */
  lemma CardOffersItsActions(msg: Message, i: nat)
    requires i < |msg.actions|
    ensures !IsFollowUp(msg.actions[i]) ==>
              exists buttons :: Buttons(buttons) in Render(msg).elements && msg.actions[i] in buttons
    ensures IsFollowUp(msg.actions[i]) && (forall j :: i < j < |msg.actions| ==> !IsFollowUp(msg.actions[j])) ==>
              FollowUpForm(msg.actions[i]) in Render(msg).elements
  {
    hide BodyElements;
    ButtonsAreTheOtherActions(msg.actions, msg.actions[i]);
    var elements := ActionElements(msg.actions, BodyElements(msg) == []);
    if !IsFollowUp(msg.actions[i]) {
      assert elements[0] == Buttons(ButtonActions(msg.actions));
      assert Buttons(ButtonActions(msg.actions)) in Render(msg).elements;
    } else if forall j :: i < j < |msg.actions| ==> !IsFollowUp(msg.actions[j]) {
      FollowUpIsTheLast(msg.actions, i);
      assert elements[|elements| - 1] == FollowUpForm(msg.actions[i]);
    }
  }

  // ---- Streaming -----------------------------------------------------------------------

  /** `taskStreamKey`: everything the running card shows but the detail. */
  datatype Key = Key(
    kind: CardKind,
    task: Id,
    status: string,
    title: string,
    subtitle: string,
    presentation: Option<TaskPresentation>,
    actions: seq<CardAction>)

  function TaskStreamKey(msg: Message): Key {
    var p := if msg.presentation.None? then None else Some(msg.presentation.value.(processingDetail := ""));
    Key(msg.kind, msg.task, msg.status, msg.title, msg.subtitle, p, msg.actions)
  }

  predicate Streams(msg: Message) {
    && msg.streamDetail && msg.kind.CardStart?
    && msg.presentation.Some? && msg.presentation.value.layout.RunningLayout?
  }

  /** What the content update of one element does to a card. */
  function SetElements(elements: seq<Element>, id: string, content: string): seq<Element> {
    if elements == [] then []
    else
      var e := elements[0];
      [if e.Section? && e.elementId == id then e.(content := Plain(content)) else e] + SetElements(elements[1..], id, content)
  }

  function SetElement(card: Card, id: string, content: string): Card {
    card.(elements := SetElements(card.elements, id, content))
  }

  lemma {:induction false} SetElementsConcat(a: seq<Element>, b: seq<Element>, id: string, content: string)
    ensures SetElements(a + b, id, content) == SetElements(a, id, content) + SetElements(b, id, content)
  {
    if a == [] {
      assert a + b == b;
    } else {
      assert (a + b)[1..] == a[1..] + b;
      SetElementsConcat(a[1..], b, id, content);
    }
  }

  predicate Lacks(elements: seq<Element>, id: string) {
    forall i :: 0 <= i < |elements| && elements[i].Section? ==> elements[i].elementId != id
  }

  lemma {:induction false} SetElementsElsewhere(elements: seq<Element>, id: string, content: string)
    requires Lacks(elements, id)
    ensures SetElements(elements, id, content) == elements
  {
    if elements != [] {
      assert elements[0] in elements;
      SetElementsElsewhere(elements[1..], id, content);
    }
  }

  /** The elements of a streamed card around its detail depend on the key alone. */
  function AroundDetail(key: Key): (r: (seq<Element>, seq<Element>))
    requires key.presentation.Some?
    ensures Lacks(r.0, DETAIL_ELEMENT) && Lacks(r.1, DETAIL_ELEMENT)
  {
    var before := RunningElements(key.kind, key.status, false, key.presentation.value.(processingDetail := ""));
    (before, ActionElements(key.actions, false))
  }

  /** The card a streamed message with this key and detail renders to. */
  function CardFor(key: Key, detail: string): Card
    requires key.presentation.Some?
  {
    var (before, after) := AroundDetail(key);
    Card(key.kind, key.status, key.title, key.subtitle, before + [Section(Detail, Plain(detail), DETAIL_ELEMENT)] + after)
  }

  lemma RenderIsCardFor(msg: Message)
    requires Streams(msg)
    ensures TaskStreamKey(msg).presentation.Some?
    ensures Render(msg) == CardFor(TaskStreamKey(msg), msg.presentation.value.processingDetail)
  {
    var p := msg.presentation.value;
    var before := RunningElements(msg.kind, msg.status, false, p.(processingDetail := ""));
    assert RunningElements(msg.kind, msg.status, true, p) == before + [Section(Detail, Plain(p.processingDetail), DETAIL_ELEMENT)];
  }

  lemma SetDetail(key: Key, old_: string, detail: string)
    requires key.presentation.Some?
    ensures SetElement(CardFor(key, old_), DETAIL_ELEMENT, detail) == CardFor(key, detail)
  {
    var (before, after) := AroundDetail(key);
    var middle := [Section(Detail, Plain(old_), DETAIL_ELEMENT)];
    SetElementsConcat(before + middle, after, DETAIL_ELEMENT, detail);
    SetElementsConcat(before, middle, DETAIL_ELEMENT, detail);
    SetElementsElsewhere(before, DETAIL_ELEMENT, detail);
    SetElementsElsewhere(after, DETAIL_ELEMENT, detail);
    assert SetElements(middle[1..], DETAIL_ELEMENT, detail) == [];
    assert SetElements(middle, DETAIL_ELEMENT, detail) == [Section(Detail, Plain(detail), DETAIL_ELEMENT)];
  }

  /**
   What the fast path rests on: when two streamed messages have the same key,
   overwriting the detail element of one's card gives the other's, and when the
   details agree too the cards are the same.
   */
  lemma RunningCardDependsOnKeyAndDetail(m1: Message, m2: Message)
    requires Streams(m1) && Streams(m2) && TaskStreamKey(m1) == TaskStreamKey(m2)
    ensures SetElement(Render(m1), DETAIL_ELEMENT, m2.presentation.value.processingDetail) == Render(m2)
    ensures m1.presentation.value.processingDetail == m2.presentation.value.processingDetail ==> Render(m1) == Render(m2)
  {
    RenderIsCardFor(m1);
    RenderIsCardFor(m2);
    SetDetail(TaskStreamKey(m1), m1.presentation.value.processingDetail, m2.presentation.value.processingDetail);
  }
}
