/** The questionnaire of a service type: its questions grouped by section
  * into an accordion, a question with a condition shown only while the
  * answer it depends on matches, and the answers the inputs record. */
module DynamicQuestions {
  import opened Outcome
  import opened Seqs
  import Text
  import CT = ContractTemplates

  /** A recorded answer: a text, a number, a checkbox flag or the option
    * values ticked in a multi-option checkbox. */
  datatype Answer = TextAnswer(s: string) | NumberAnswer(n: int) | FlagAnswer(b: bool) | PicksAnswer(values: seq<string>)

  /** `responses`, by question id; a missing key is an unanswered question. */
  type Responses = map<string, Answer>

  /** `===` between an answer and a condition's value. */
  predicate Meets(a: Answer, v: CT.CondValue)
  {
    match v
    case WhenText(s) => a == TextAnswer(s)
    case WhenFlag(b) => a == FlagAnswer(b)
  }

  /** The answer that meets a condition's value. */
  function Meeting(v: CT.CondValue): (a: Answer)
    ensures Meets(a, v)
  {
    match v
    case WhenText(s) => TextAnswer(s)
    case WhenFlag(b) => FlagAnswer(b)
  }

  /** `shouldShowQuestion`. */
  function ShouldShow(q: CT.Question, responses: Responses): (r: bool)
    ensures q.dependsOn.None? ==> r
    ensures q.dependsOn.Some? && q.dependsOn.value.question !in responses ==> !r
  {
    q.dependsOn.None?
    || (q.dependsOn.value.question in responses && Meets(responses[q.dependsOn.value.question], q.dependsOn.value.value))
  }

  /** A question without a condition is always shown; one with a
    * condition is hidden while its parent is unanswered, shown once the
    * parent gets the awaited answer, and hidden again by any other. */
  lemma VisibilityFollowsParent(q: CT.Question, responses: Responses, other: Answer)
    ensures q.dependsOn.None? ==> ShouldShow(q, responses)
    ensures q.dependsOn.Some? && q.dependsOn.value.question !in responses ==> !ShouldShow(q, responses)
    ensures q.dependsOn.Some? ==>
              ShouldShow(q, responses[q.dependsOn.value.question := Meeting(q.dependsOn.value.value)])
    ensures q.dependsOn.Some? && !Meets(other, q.dependsOn.value.value) ==>
              !ShouldShow(q, responses[q.dependsOn.value.question := other])
  {
  }

  /** Only the parent's answer matters. */
  lemma VisibilityOnlyReadsParent(q: CT.Question, r1: Responses, r2: Responses)
    requires q.dependsOn.Some?
    requires var p := q.dependsOn.value.question; (p in r1 <==> p in r2) && (p in r1 ==> r1[p] == r2[p])
    ensures ShouldShow(q, r1) == ShouldShow(q, r2)
  {
  }

  /** `responses[id] || []` under a multi-option checkbox. */
  function CurrentPicks(responses: Responses, id: string): (r: seq<string>)
    ensures id in responses && responses[id].PicksAnswer? ==> r == responses[id].values
    ensures !(id in responses && responses[id].PicksAnswer?) ==> r == []
  {
    if id in responses && responses[id].PicksAnswer? then responses[id].values else []
  }

  function NotValue(v: string): string -> bool
  {
    (x: string) => x != v
  }

  /** The answer a multi-option checkbox records when one option is
    * ticked or unticked: ticking appends the value, unticking drops every
    * copy of it and keeps the rest in order. */
  function TickOption(current: seq<string>, option: string, checked: bool): (r: Answer)
    ensures r.PicksAnswer?
    ensures checked ==> multiset(r.values) == multiset(current) + multiset{option}
    ensures checked ==> |r.values| == |current| + 1 && r.values[..|current|] == current
    ensures !checked ==> option !in r.values
    ensures !checked ==> forall x :: x != option ==> (x in r.values <==> x in current)
    ensures !checked ==> |r.values| <= |current|
  {
    if checked then PicksAnswer(current + [option])
    else PicksAnswer(Filter(current, NotValue(option)))
  }

  /** Unticking after ticking leaves what unticking alone would. */
  lemma TickThenUntick(current: seq<string>, option: string)
    ensures TickOption(TickOption(current, option, true).values, option, false) == TickOption(current, option, false)
  {
    FilterAppend(current, [option], NotValue(option));
    assert Filter([option], NotValue(option)) == [];
  }

  /** Unticking twice is unticking once. */
  lemma UntickIdempotent(current: seq<string>, option: string)
    ensures var once := TickOption(current, option, false).values;
            TickOption(once, option, false) == TickOption(current, option, false)
  {
    var once := TickOption(current, option, false).values;
    FilterKeepsAll(once, NotValue(option));
  }

  /** What the inputs of the questionnaire report. */
  datatype InputEvent = Typed(text: string) | TypedNumber(n: int) | Picked(value: string) | Ticked(option: Option<string>, checked: bool)

  /** The answer an input event records for a question, or `None` for an
    * event the question's input cannot produce. */
  function AnswerFor(q: CT.Question, responses: Responses, ev: InputEvent): (r: Option<Answer>)
    ensures ev.Typed? && q.kind in {CT.TextInput, CT.Textarea, CT.DateInput} ==> r == Some(TextAnswer(ev.text))
    ensures ev.Picked? && q.kind in {CT.Select, CT.Radio} ==> r == Some(TextAnswer(ev.value))
    ensures ev.TypedNumber? && q.kind == CT.NumberInput ==> r == Some(NumberAnswer(ev.n))
    ensures ev.Ticked? && q.kind == CT.Checkbox && q.options.None? && ev.option.None? ==>
              r == Some(FlagAnswer(ev.checked))
    ensures ev.Ticked? && q.kind == CT.Checkbox && q.options.Some? && ev.option.Some? ==>
              r == Some(TickOption(CurrentPicks(responses, q.id), ev.option.value, ev.checked))
    ensures r.Some? ==> q.kind != CT.Checkbox || r.value.FlagAnswer? || r.value.PicksAnswer?
  {
    match ev
    case Typed(text) =>
      if q.kind in {CT.TextInput, CT.Textarea, CT.DateInput} then Some(TextAnswer(text)) else None
    case TypedNumber(n) =>
      if q.kind == CT.NumberInput then Some(NumberAnswer(n)) else None
    case Picked(value) =>
      if q.kind in {CT.Select, CT.Radio} then Some(TextAnswer(value)) else None
    case Ticked(option, checked) =>
      if q.kind != CT.Checkbox then None
      else if q.options.None? && option.None? then Some(FlagAnswer(checked))
      else if q.options.Some? && option.Some? then Some(TickOption(CurrentPicks(responses, q.id), option.value, checked))
      else None
  }

  /** Every follow-up question of a well-formed questionnaire can be
    * reached: answering its parent through the parent's own input shows it. */
  lemma FollowUpReachable(qs: seq<CT.Question>, i: int, responses: Responses)
    requires CT.ConditionsWellFormed(qs)
    requires 0 <= i < |qs| && qs[i].dependsOn.Some?
    ensures exists j, ev :: 0 <= j < i && AnswerFor(qs[j], responses, ev).Some?
                            && ShouldShow(qs[i], responses[qs[j].id := AnswerFor(qs[j], responses, ev).value])
  {
    var cond := qs[i].dependsOn.value;
    var j :| 0 <= j < i && CT.FitsTarget(cond, qs[j]);
    var ev := match cond.value
              case WhenFlag(b) => Ticked(None, b)
              case WhenText(v) => Picked(v);
    assert AnswerFor(qs[j], responses, ev) == Some(Meeting(cond.value));
  }

  function InSection(s: CT.Section): CT.Question -> bool
  {
    (q: CT.Question) => q.section == s
  }

  /** The sections of `qs` in the order of their first question. */
  function SectionsInOrder(qs: seq<CT.Question>): (r: seq<CT.Section>)
    ensures forall i, j :: 0 <= i < j < |r| ==> r[i] != r[j]
  {
    if qs == [] then []
    else
      var o := SectionsInOrder(qs[..|qs| - 1]);
      var last := qs[|qs| - 1];
      if last.section in o then o else o + [last.section]
  }

  /** The keys are exactly the sections the questions are in. */
  lemma {:induction false} SectionsInOrderMembers(qs: seq<CT.Question>)
    ensures forall s :: s in SectionsInOrder(qs) <==> exists q :: q in qs && q.section == s
  {
    if qs != [] {
      var init := qs[..|qs| - 1];
      SectionsInOrderMembers(init);
      assert forall q :: q in qs <==> q in init || q == qs[|qs| - 1];
    }
  }

  lemma SectionsInOrderSnoc(init: seq<CT.Question>, q: CT.Question)
    ensures SectionsInOrder(init + [q]) ==
              if q.section in SectionsInOrder(init) then SectionsInOrder(init) else SectionsInOrder(init) + [q.section]
  {
    var qs := init + [q];
    assert qs[..|qs| - 1] == init;
    assert qs[|qs| - 1] == q;
  }

  /** The size of the groups of `order`, added up. */
  function GroupSizes(order: seq<CT.Section>, qs: seq<CT.Question>): nat
  {
    if order == [] then 0 else |Filter(qs, InSection(order[0]))| + GroupSizes(order[1..], qs)
  }

  lemma {:induction false} GroupSizesAppendSection(order: seq<CT.Section>, s: CT.Section, qs: seq<CT.Question>)
    ensures GroupSizes(order + [s], qs) == GroupSizes(order, qs) + |Filter(qs, InSection(s))|
  {
    if order != [] {
      assert (order + [s])[1..] == order[1..] + [s];
      GroupSizesAppendSection(order[1..], s, qs);
    }
  }

  lemma {:induction false} GroupSizesAppendQuestion(order: seq<CT.Section>, qs: seq<CT.Question>, q: CT.Question)
    requires forall i, j :: 0 <= i < j < |order| ==> order[i] != order[j]
    ensures GroupSizes(order, qs + [q]) == GroupSizes(order, qs) + (if q.section in order then 1 else 0)
  {
    if order != [] {
      FilterAppend(qs, [q], InSection(order[0]));
      assert order[0] !in order[1..];
      GroupSizesAppendQuestion(order[1..], qs, q);
      assert q.section in order <==> q.section == order[0] || q.section in order[1..];
    }
  }

  /** The groups together hold every question exactly once. */
  lemma {:induction false} GroupsPartition(qs: seq<CT.Question>)
    ensures GroupSizes(SectionsInOrder(qs), qs) == |qs|
  {
    if qs != [] {
      var init := qs[..|qs| - 1];
      GroupsPartition(init);
      GroupsPartitionStep(init, qs[|qs| - 1]);
      SplitLast(qs);
    }
  }

  /** One more question adds one to the group sizes, in its old group or
    * in a new one. */
  lemma GroupsPartitionStep(init: seq<CT.Question>, last: CT.Question)
    requires GroupSizes(SectionsInOrder(init), init) == |init|
    ensures GroupSizes(SectionsInOrder(init + [last]), init + [last]) == |init| + 1
  {
    SectionsInOrderSnoc(init, last);
    SectionsInOrderMembers(init);
    GroupSizesStep(SectionsInOrder(init), SectionsInOrder(init + [last]), init, last);
  }

  /** `GroupsPartitionStep` for any list of distinct sections that holds
    * every section of `init`. */
  lemma GroupSizesStep(o: seq<CT.Section>, o2: seq<CT.Section>, init: seq<CT.Question>, last: CT.Question)
    requires forall i, j :: 0 <= i < j < |o| ==> o[i] != o[j]
    requires forall q :: q in init ==> q.section in o
    requires o2 == if last.section in o then o else o + [last.section]
    requires GroupSizes(o, init) == |init|
    ensures GroupSizes(o2, init + [last]) == |init| + 1
  {
    GroupSizesAppendQuestion(o, init, last);
    if last.section !in o {
      NewGroupHoldsOne(init, last);
      GroupSizesAppendSection(o, last.section, init + [last]);
    }
  }

  /** A question whose section no earlier question has forms a group of
    * its own. */
  lemma NewGroupHoldsOne(init: seq<CT.Question>, last: CT.Question)
    requires forall q :: q in init ==> q.section != last.section
    ensures |Filter(init + [last], InSection(last.section))| == 1
  {
    var p := InSection(last.section);
    FilterAppend(init, [last], p);
    FilterDropsAll(init, p);
    assert Filter([last], p) == [last] + Filter([last][1..], p);
  }

  /** The groups after the reduce has seen `qs`. */
  function GroupsAfter(qs: seq<CT.Question>): map<CT.Section, seq<CT.Question>>
  {
    if qs == [] then map[]
    else
      var m := GroupsAfter(qs[..|qs| - 1]);
      var q := qs[|qs| - 1];
      m[q.section := (if q.section in m then m[q.section] else []) + [q]]
  }

  lemma GroupsAfterSnoc(init: seq<CT.Question>, q: CT.Question)
    ensures var m := GroupsAfter(init);
            GroupsAfter(init + [q]) == m[q.section := (if q.section in m then m[q.section] else []) + [q]]
  {
    var qs := init + [q];
    assert qs[..|qs| - 1] == init;
  }

  /** A section has a group exactly when one of the questions is in it,
    * and the group is that section's questions in list order. */
  lemma {:induction false} GroupsAfterSpec(qs: seq<CT.Question>)
    ensures forall s :: s in GroupsAfter(qs) <==> s in SectionsInOrder(qs)
    ensures forall s :: s in GroupsAfter(qs) ==> GroupsAfter(qs)[s] == Filter(qs, InSection(s))
  {
    if qs != [] {
      var init := qs[..|qs| - 1];
      GroupsAfterSpec(init);
      SectionsInOrderMembers(init);
      GroupsAfterSpecStep(init, qs[|qs| - 1]);
      SplitLast(qs);
    }
  }

  /** The step of `GroupsAfterSpec` for one more question. */
  lemma GroupsAfterSpecStep(init: seq<CT.Question>, q: CT.Question)
    requires forall s :: s in GroupsAfter(init) <==> s in SectionsInOrder(init)
    requires forall s :: s in GroupsAfter(init) ==> GroupsAfter(init)[s] == Filter(init, InSection(s))
    requires forall s :: s in SectionsInOrder(init) <==> exists q' :: q' in init && q'.section == s
    ensures forall s :: s in GroupsAfter(init + [q]) <==> s in SectionsInOrder(init + [q])
    ensures forall s :: s in GroupsAfter(init + [q]) ==> GroupsAfter(init + [q])[s] == Filter(init + [q], InSection(s))
  {
    var qs := init + [q];
    SectionsInOrderSnoc(init, q);
    GroupsAfterSnoc(init, q);
    forall s | s in GroupsAfter(qs) ensures GroupsAfter(qs)[s] == Filter(qs, InSection(s)) {
      var p := InSection(s);
      FilterAppend(init, [q], p);
      FilterSingleton(q, p);
      if s == q.section && s !in GroupsAfter(init) {
        assert forall x :: x in init ==> !p(x);
        FilterDropsAll(init, p);
      }
    }
  }

  /** One question more: a new section is added to the keys and to the
    * groups together, and the question joins its section's group. */
  lemma GroupStep(qs: seq<CT.Question>, i: int)
    requires 0 <= i < |qs|
    ensures var m := GroupsAfter(qs[..i]);
            var q := qs[i];
            && SectionsInOrder(qs[..i + 1])
                 == (if q.section in m then SectionsInOrder(qs[..i]) else SectionsInOrder(qs[..i]) + [q.section])
            && GroupsAfter(qs[..i + 1]) == m[q.section := (if q.section in m then m[q.section] else []) + [q]]
  {
    assert qs[..i + 1] == qs[..i] + [qs[i]];
    SectionsInOrderSnoc(qs[..i], qs[i]);
    GroupsAfterSnoc(qs[..i], qs[i]);
    GroupsAfterSpec(qs[..i]);
  }

  /** `questionsBySection`: the reduce that pushes each question into its
    * section's list, with the sections in the order the keys were added. */
  method GroupBySection(qs: seq<CT.Question>) returns (order: seq<CT.Section>, groups: map<CT.Section, seq<CT.Question>>)
    ensures order == SectionsInOrder(qs)
    ensures forall s :: s in groups <==> s in order
    ensures forall s :: s in groups ==> groups[s] == Filter(qs, InSection(s))
  {
    order := [];
    groups := map[];
    var i := 0;
    while i < |qs|
      invariant 0 <= i <= |qs|
      invariant order == SectionsInOrder(qs[..i])
      invariant groups == GroupsAfter(qs[..i])
    {
      var q := qs[i];
      GroupStep(qs, i);
      if q.section !in groups {
        groups := groups[q.section := []];
        order := order + [q.section];
      }
      groups := groups[q.section := groups[q.section] + [q]];
      i := i + 1;
    }
    assert qs[..i] == qs;
    GroupsAfterSpec(qs);
  }

  const ScopeTitle: string := "Escopo do Serviço"
  const PaymentTitle: string := "Pagamento"
  const TimelineTitle: string := "Prazos e Cronograma"
  const DeliverablesTitle: string := "Entregas e Resultados"
  const TermsTitle: string := "Termos e Condições"
  const RightsTitle: string := "Direitos e Propriedade Intelectual"
  const SupportTitle: string := "Suporte e Pós-Entrega"

  /** `getSectionTitle`: the fixed title of a known section, otherwise the
    * key with its first character upper-cased. */
  function SectionTitle(section: string): (r: string)
    ensures section == "scope" ==> r == ScopeTitle
    ensures section !in {"scope", "payment", "timeline", "deliverables", "terms", "rights", "support"} ==>
              (section == "" ==> r == "")
              && (section != "" ==> |r| == |section| && r[0] == Text.UpperChar(section[0]) && r[1..] == section[1..])
  {
    if section == "scope" then ScopeTitle
    else if section == "payment" then PaymentTitle
    else if section == "timeline" then TimelineTitle
    else if section == "deliverables" then DeliverablesTitle
    else if section == "terms" then TermsTitle
    else if section == "rights" then RightsTitle
    else if section == "support" then SupportTitle
    else if section == "" then ""
    else Text.Upper(section[..1]) + section[1..]
  }

  /** The seven sections get seven different fixed titles. */
  lemma SectionTitlesDistinct(a: CT.Section, b: CT.Section)
    requires a != b
    ensures SectionTitle(CT.SectionId(a)) != SectionTitle(CT.SectionId(b))
  {
    KnownSectionTitle(a);
    KnownSectionTitle(b);
  }

  /** The fixed title of each of the seven sections. */
  function FixedTitle(s: CT.Section): string
  {
    match s
    case Scope => ScopeTitle
    case Payment => PaymentTitle
    case Timeline => TimelineTitle
    case Deliverables => DeliverablesTitle
    case Terms => TermsTitle
    case Rights => RightsTitle
    case Support => SupportTitle
  }

  lemma KnownSectionTitle(s: CT.Section)
    ensures SectionTitle(CT.SectionId(s)) == FixedTitle(s)
  {
  }

  class Panel {
    /** `expandedSections`. */
    var expandedSections: seq<string>

    constructor()
      ensures expandedSections == ["scope"]
    {
      expandedSections := ["scope"];
    }

    /** `toggleSection`: closes an open section (every copy of it) or
      * opens a closed one at the end. */
    method ToggleSection(section: string)
      modifies this
      ensures section in old(expandedSections) ==> expandedSections == Filter(old(expandedSections), NotValue(section))
      ensures section !in old(expandedSections) ==> expandedSections == old(expandedSections) + [section]
      ensures section in expandedSections <==> section !in old(expandedSections)
      ensures forall s :: s != section ==> (s in expandedSections <==> s in old(expandedSections))
    {
      if section in expandedSections {
        expandedSections := Filter(expandedSections, NotValue(section));
      } else {
        expandedSections := expandedSections + [section];
      }
    }
  }
}
