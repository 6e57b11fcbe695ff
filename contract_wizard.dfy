/** The contract wizard: eight steps walked with Next and Back over one
  * form record, each step with its own condition for enabling Next, and
  * the form handed on when Next is pressed on the last step. */
module ContractWizard {
  import opened Outcome
  import CT = ContractTemplates
  import DQ = DynamicQuestions
  import TL = TimelineStep

  /** A party to the contract; the representative only matters for a
    * company. */
  datatype Party = Party(name: string, document: string, address: string, email: string, phone: string,
                         isCompany: bool, legalRepresentative: Option<string>)

  /** The payment terms; `amount` is the number the payment step parsed. */
  datatype Payment = Payment(amount: real, paymentMethod: string, installments: int, conditions: string,
                             lateFees: Option<string>)

  datatype Clauses = Clauses(confidentiality: bool, personalData: bool, intellectualProperty: bool, insurance: bool)

  /** `ContractFormData`. */
  datatype FormData = FormData(
    serviceType: Option<CT.ServiceType>,
    serviceTypeCustomName: Option<string>,
    contractor: Party,
    contracted: Party,
    serviceScope: string,
    payment: Payment,
    timeline: TL.TimelineData,
    clauses: Clauses,
    jurisdiction: string,
    questionResponses: DQ.Responses)

  datatype WizardStep =
    | ServiceTypeStep | ContractorInfo | ContractedInfo | ServiceScope
    | PaymentInfo | TimelineInfo | AdditionalClauses | Jurisdiction

  /** `wizardSteps`, in the order the wizard walks them. */
  const Steps: seq<WizardStep> :=
    [ServiceTypeStep, ContractorInfo, ContractedInfo, ServiceScope, PaymentInfo, TimelineInfo, AdditionalClauses, Jurisdiction]

  const LastStep: int := |Steps| - 1

  function StepId(step: WizardStep): string
  {
    match step
    case ServiceTypeStep => "service-type"
    case ContractorInfo => "contractor-info"
    case ContractedInfo => "contracted-info"
    case ServiceScope => "service-scope"
    case PaymentInfo => "payment"
    case TimelineInfo => "timeline"
    case AdditionalClauses => "clauses"
    case Jurisdiction => "jurisdiction"
  }

  /** Every step is walked once, and the step ids tell the steps apart. */
  lemma StepsListed()
    ensures |Steps| == 8 && LastStep == 7
    ensures forall s: WizardStep :: s in Steps
    ensures forall i, j :: 0 <= i < j < |Steps| ==> Steps[i] != Steps[j]
    ensures forall a: WizardStep, b: WizardStep :: StepId(a) == StepId(b) ==> a == b
  {
    forall s: WizardStep ensures s in Steps {
      match s
      case ServiceTypeStep => assert Steps[0] == s;
      case ContractorInfo => assert Steps[1] == s;
      case ContractedInfo => assert Steps[2] == s;
      case ServiceScope => assert Steps[3] == s;
      case PaymentInfo => assert Steps[4] == s;
      case TimelineInfo => assert Steps[5] == s;
      case AdditionalClauses => assert Steps[6] == s;
      case Jurisdiction => assert Steps[7] == s;
    }
  }

  /** `getStepTitle`; the default title is unreachable for a listed step. */
  function StepTitle(step: WizardStep): (r: string)
    ensures r != "" && r != "Contrato"
  {
    match step
    case ServiceTypeStep => "Tipo de Serviço"
    case ContractorInfo => "Informações do Contratante"
    case ContractedInfo => "Informações do Contratado"
    case ServiceScope => "Escopo do Serviço"
    case PaymentInfo => "Pagamento"
    case TimelineInfo => "Prazos e Entregas"
    case AdditionalClauses => "Cláusulas Adicionais"
    case Jurisdiction => "Rescisão e Foro"
  }

  /** The titles tell the steps apart and none is the fallback "Contrato". */
  lemma StepTitlesDistinct(a: WizardStep, b: WizardStep)
    ensures StepTitle(a) == StepTitle(b) ==> a == b
    ensures StepTitle(a) != "Contrato"
  {
  }

  const BlankParty: Party := Party("", "", "", "", "", false, None)

  /** The form as the wizard first shows it. */
  const InitialForm: FormData := FormData(
    None, None, BlankParty, BlankParty, "",
    Payment(0.0, "pix", 1, "", None),
    TL.TimelineData("", "", None),
    Clauses(false, false, false, false),
    "", map[])

  /** `canContinue` on a given step: the fields that step fills are set.
    * A JavaScript string is truthy when it is not empty. */
  function CanContinue(step: WizardStep, form: FormData): (r: bool)
    ensures step == AdditionalClauses ==> r
    ensures r && step != AdditionalClauses ==> form != InitialForm
  {
    match step
    case ServiceTypeStep => form.serviceType.Some?
    case ContractorInfo => form.contractor.name != "" && form.contractor.document != ""
    case ContractedInfo => form.contracted.name != "" && form.contracted.document != ""
    case ServiceScope => form.serviceScope != ""
    case PaymentInfo => form.payment.amount > 0.0
    case TimelineInfo => form.timeline.startDate != "" && form.timeline.endDate != ""
    case AdditionalClauses => true
    case Jurisdiction => form.jurisdiction != ""
  }

  /** The blank form passes only the clauses step. */
  lemma InitialFormBlocks(step: WizardStep)
    ensures CanContinue(step, InitialForm) <==> step == AdditionalClauses
  {
  }

  /** Which top-level field of the form an update replaces. */
  datatype FieldName =
    | ServiceTypeField | CustomNameField | ContractorField | ContractedField | ScopeField
    | PaymentField | TimelineField | ClausesField | JurisdictionField

  /** `updateFormData(field, value)`, one constructor per field. */
  datatype FieldUpdate =
    | SetServiceType(serviceType: Option<CT.ServiceType>)
    | SetCustomName(customName: Option<string>)
    | SetContractor(contractor: Party)
    | SetContracted(contracted: Party)
    | SetScope(scope: string)
    | SetPayment(payment: Payment)
    | SetTimeline(timeline: TL.TimelineData)
    | SetClauses(clauses: Clauses)
    | SetJurisdiction(jurisdiction: string)

  function FieldOf(u: FieldUpdate): FieldName
  {
    match u
    case SetServiceType(_) => ServiceTypeField
    case SetCustomName(_) => CustomNameField
    case SetContractor(_) => ContractorField
    case SetContracted(_) => ContractedField
    case SetScope(_) => ScopeField
    case SetPayment(_) => PaymentField
    case SetTimeline(_) => TimelineField
    case SetClauses(_) => ClausesField
    case SetJurisdiction(_) => JurisdictionField
  }

  /** The field named by `u`, read from `form`, as an update. */
  function Current(form: FormData, u: FieldUpdate): (r: FieldUpdate)
    ensures FieldOf(r) == FieldOf(u)
  {
    match u
    case SetServiceType(_) => SetServiceType(form.serviceType)
    case SetCustomName(_) => SetCustomName(form.serviceTypeCustomName)
    case SetContractor(_) => SetContractor(form.contractor)
    case SetContracted(_) => SetContracted(form.contracted)
    case SetScope(_) => SetScope(form.serviceScope)
    case SetPayment(_) => SetPayment(form.payment)
    case SetTimeline(_) => SetTimeline(form.timeline)
    case SetClauses(_) => SetClauses(form.clauses)
    case SetJurisdiction(_) => SetJurisdiction(form.jurisdiction)
  }

  /** `{...prev, [field]: value}`: the named field reads back as the new
    * value and every other field reads as before; the answers to the
    * questionnaire are not a field this updates. */
  function Apply(form: FormData, u: FieldUpdate): (r: FormData)
    ensures Current(r, u) == u
    ensures !u.SetServiceType? ==> r.serviceType == form.serviceType
    ensures !u.SetCustomName? ==> r.serviceTypeCustomName == form.serviceTypeCustomName
    ensures !u.SetContractor? ==> r.contractor == form.contractor
    ensures !u.SetContracted? ==> r.contracted == form.contracted
    ensures !u.SetScope? ==> r.serviceScope == form.serviceScope
    ensures !u.SetPayment? ==> r.payment == form.payment
    ensures !u.SetTimeline? ==> r.timeline == form.timeline
    ensures !u.SetClauses? ==> r.clauses == form.clauses
    ensures !u.SetJurisdiction? ==> r.jurisdiction == form.jurisdiction
    ensures r.questionResponses == form.questionResponses
  {
    match u
    case SetServiceType(t) => form.(serviceType := t)
    case SetCustomName(n) => form.(serviceTypeCustomName := n)
    case SetContractor(p) => form.(contractor := p)
    case SetContracted(p) => form.(contracted := p)
    case SetScope(s) => form.(serviceScope := s)
    case SetPayment(p) => form.(payment := p)
    case SetTimeline(t) => form.(timeline := t)
    case SetClauses(c) => form.(clauses := c)
    case SetJurisdiction(j) => form.(jurisdiction := j)
  }

  /** Writing back a field's old value undoes an update. */
  lemma ApplyUndone(form: FormData, u: FieldUpdate)
    ensures Apply(Apply(form, u), Current(form, u)) == form
  {
  }

  /** Updates of two different fields commute. */
  lemma UpdatesCommute(form: FormData, u: FieldUpdate, v: FieldUpdate)
    requires FieldOf(u) != FieldOf(v)
    ensures Apply(Apply(form, u), v) == Apply(Apply(form, v), u)
  {
    var x := Apply(Apply(form, u), v);
    var y := Apply(Apply(form, v), u);
    assert x.serviceType == y.serviceType;
    assert x.serviceTypeCustomName == y.serviceTypeCustomName;
    assert x.contractor == y.contractor;
    assert x.contracted == y.contracted;
    assert x.serviceScope == y.serviceScope;
    assert x.payment == y.payment;
    assert x.timeline == y.timeline;
    assert x.clauses == y.clauses;
    assert x.jurisdiction == y.jurisdiction;
  }

  /** The step Next moves to: one further, except on the last step. */
  function StepAfterNext(step: int): (r: int)
    ensures 0 <= step <= LastStep ==> 0 <= r <= LastStep
    ensures step < LastStep ==> r == step + 1
    ensures step >= LastStep ==> r == step
  {
    if step < |Steps| - 1 then step + 1 else step
  }

  /** The step Back moves to: one back, except on the first step. */
  function StepAfterBack(step: int): (r: int)
    ensures 0 <= step <= LastStep ==> 0 <= r <= LastStep
    ensures step > 0 ==> r == step - 1
    ensures step <= 0 ==> r == step
  {
    if step > 0 then step - 1 else step
  }

  /** Back undoes Next below the last step, and Next undoes Back above the
    * first. */
  lemma NextBackInverse(step: int)
    ensures 0 <= step < LastStep ==> StepAfterBack(StepAfterNext(step)) == step
    ensures 0 < step <= LastStep ==> StepAfterNext(StepAfterBack(step)) == step
  {
  }

  /** `n` presses of Next from the first step reach step `min(n, 7)`. */
  function NextTimes(step: int, n: nat): int
    decreases n
  {
    if n == 0 then step else NextTimes(StepAfterNext(step), n - 1)
  }

  lemma {:induction false} NextTimesReaches(step: int, n: nat)
    requires 0 <= step <= LastStep
    ensures NextTimes(step, n) == if step + n <= LastStep then step + n else LastStep
    decreases n
  {
    if n > 0 {
      NextTimesReaches(StepAfterNext(step), n - 1);
    }
  }

  class Wizard {
    /** Index into `Steps`. */
    var currentStep: int
    var formData: FormData
    /** The forms handed to `onComplete`, oldest first. */
    var completions: seq<FormData>

    ghost predicate Valid()
      reads this
    {
      0 <= currentStep <= LastStep
    }

    constructor()
      ensures Valid()
      ensures currentStep == 0 && formData == InitialForm && completions == []
    {
      currentStep := 0;
      formData := InitialForm;
      completions := [];
    }

    function Step(): WizardStep
      reads this
      requires Valid()
    {
      Steps[currentStep]
    }

    /** Whether the Next button is enabled. */
    predicate NextEnabled()
      reads this
      requires Valid()
    {
      CanContinue(Step(), formData)
    }

    /** Whether the Back button is enabled. */
    predicate BackEnabled()
      reads this
    {
      currentStep != 0
    }

    /** `handleNext`: advance below the last step, hand the form on at the
      * last step. It does not consult `canContinue` itself; only the
      * disabled button does. */
    method HandleNext()
      requires Valid()
      modifies this
      ensures Valid()
      ensures currentStep == StepAfterNext(old(currentStep))
      ensures formData == old(formData)
      ensures old(currentStep) < LastStep ==> completions == old(completions)
      ensures old(currentStep) == LastStep ==> completions == old(completions) + [old(formData)]
    {
      if currentStep < |Steps| - 1 {
        currentStep := currentStep + 1;
      } else {
        completions := completions + [formData];
      }
    }

    /** `handleBack`. */
    method HandleBack()
      requires Valid()
      modifies this
      ensures Valid()
      ensures currentStep == StepAfterBack(old(currentStep))
      ensures formData == old(formData) && completions == old(completions)
    {
      if currentStep > 0 {
        currentStep := currentStep - 1;
      }
    }

    /** `updateFormData`. */
    method UpdateFormData(u: FieldUpdate)
      modifies this
      ensures formData == Apply(old(formData), u)
      ensures currentStep == old(currentStep) && completions == old(completions)
    {
      formData := Apply(formData, u);
    }

    /** `handleQuestionResponseChange`: one answer set, the others kept. */
    method HandleQuestionResponseChange(questionId: string, answer: DQ.Answer)
      modifies this
      ensures formData.questionResponses == old(formData.questionResponses)[questionId := answer]
      ensures formData == old(formData).(questionResponses := formData.questionResponses)
      ensures currentStep == old(currentStep) && completions == old(completions)
    {
      formData := formData.(questionResponses := formData.questionResponses[questionId := answer]);
    }

    /** The service-type step's callback: the type is always set, the
      * custom name only when a non-empty one comes with it. */
    method ChooseServiceType(t: CT.ServiceType, customName: Option<string>)
      modifies this
      ensures formData == ChosenServiceType(old(formData), t, customName)
      ensures formData.serviceType == Some(t)
      ensures customName.Some? && customName.value != "" ==> formData.serviceTypeCustomName == customName
      ensures !(customName.Some? && customName.value != "") ==>
                formData.serviceTypeCustomName == old(formData.serviceTypeCustomName)
      ensures formData == old(formData).(serviceType := Some(t), serviceTypeCustomName := formData.serviceTypeCustomName)
      ensures currentStep == old(currentStep) && completions == old(completions)
    {
      UpdateFormData(SetServiceType(Some(t)));
      if customName.Some? && customName.value != "" {
        UpdateFormData(SetCustomName(customName));
      }
    }
  }

  /** The form after the service-type step's callback: the type is set, and
    * the custom name is replaced only by a non-empty one. */
  function ChosenServiceType(form: FormData, t: CT.ServiceType, customName: Option<string>): (r: FormData)
    ensures r.serviceType == Some(t)
    ensures r.serviceTypeCustomName == if customName.Some? && customName.value != "" then customName
                                       else form.serviceTypeCustomName
    ensures r == form.(serviceType := Some(t), serviceTypeCustomName := r.serviceTypeCustomName)
  {
    var typed := Apply(form, SetServiceType(Some(t)));
    if customName.Some? && customName.value != "" then Apply(typed, SetCustomName(customName)) else typed
  }

  /** Clearing the custom-name box, or choosing a type without one, leaves
    * the name typed before it in the form, where the preview still reads
    * it. */
  lemma ClearedCustomNameKept(form: FormData, t: CT.ServiceType, t2: CT.ServiceType, name: string,
                              cleared: Option<string>)
    requires name != ""
    requires cleared.None? || cleared == Some("")
    ensures ChosenServiceType(ChosenServiceType(form, t, Some(name)), t2, cleared).serviceTypeCustomName == Some(name)
  {
  }
}
