/** The contract preview: the text the wizard's form renders to, reduced
  * to the choices it makes — the title, the party details shown, the
  * scope, the payment wording, the obligation lists and which optional
  * clauses appear. */
module ContractPreview {
  import opened Outcome
  import Text
  import CT = ContractTemplates
  import CW = ContractWizard
  import TL = TimelineStep

  const DefaultTitle: string := "CONTRATO DE PRESTAÇÃO DE SERVIÇOS"
  const CustomTitlePrefix: string := "CONTRATO DE PRESTAÇÃO DE SERVIÇOS DE "
  const DefaultScope: string := "O presente contrato tem como objeto a prestação de serviços conforme detalhado no anexo."

  /** `formatDate`: an empty date prints as nothing; any other date as the
    * browser's pt-BR rendering of it, which comes in as `formatted`. */
  function FormatDate(dateStr: string, formatted: string): (r: string)
    ensures dateStr == "" ==> r == ""
    ensures dateStr != "" ==> r == formatted
  {
    if dateStr == "" then "" else formatted
  }

  /** `getContractTitle`. */
  function ContractTitle(form: CW.FormData): (r: string)
    ensures form.serviceType.None? ==> r == DefaultTitle
    ensures (form.serviceType == Some(CT.Other) && Text.OrElse(form.serviceTypeCustomName, "") != "")
              ==> r == CustomTitlePrefix + Text.Upper(form.serviceTypeCustomName.value)
    ensures (form.serviceType.Some? && !(form.serviceType.value == CT.Other && Text.OrElse(form.serviceTypeCustomName, "") != ""))
              ==> r == Text.Upper(CT.TemplateTitle(form.serviceType.value))
  {
    match form.serviceType
    case None => DefaultTitle
    case Some(t) =>
      if t == CT.Other && Text.OrElse(form.serviceTypeCustomName, "") != "" then
        CustomTitlePrefix + Text.Upper(form.serviceTypeCustomName.value)
      else
        Text.Or(Text.Upper(CT.TemplateTitle(t)), DefaultTitle)
  }

  /** Upper-casing text whose characters are all capitals already leaves
    * it as it is. */
  lemma UpperOfCapitals(s: string)
    requires forall i :: 0 <= i < |s| ==> Text.UpperChar(s[i]) == s[i]
    ensures Text.Upper(s) == s
  {
  }

  lemma UpperAppend(a: string, b: string)
    ensures Text.Upper(a + b) == Text.Upper(a) + Text.Upper(b)
  {
  }

  /** The title is always in capitals: upper-casing it changes nothing. */
  lemma TitleInCapitals(form: CW.FormData)
    ensures Text.Upper(ContractTitle(form)) == ContractTitle(form)
  {
    match form.serviceType
    case None =>
      UpperOfCapitals(DefaultTitle);
    case Some(t) =>
      if t == CT.Other && Text.OrElse(form.serviceTypeCustomName, "") != "" {
        var custom := Text.Upper(form.serviceTypeCustomName.value);
        UpperOfCapitals(CustomTitlePrefix);
        UpperAppend(CustomTitlePrefix, custom);
        Text.UpperIdempotent(form.serviceTypeCustomName.value);
      } else {
        Text.UpperIdempotent(CT.TemplateTitle(t));
      }
  }

  /** The party's document wording. */
  function DocumentKind(p: CW.Party): (r: string)
    ensures p.isCompany <==> r == " pessoa jurídica inscrita no CNPJ"
    ensures !p.isCompany <==> r == " pessoa física inscrita no CPF"
  {
    if p.isCompany then " pessoa jurídica inscrita no CNPJ" else " pessoa física inscrita no CPF"
  }

  /** The representative is named only for a company that gave one. */
  predicate RepresentativeShown(p: CW.Party)
  {
    p.isCompany && Text.OrElse(p.legalRepresentative, "") != ""
  }

  /** The address, e-mail and phone are named only when given. */
  predicate AddressShown(p: CW.Party) { p.address != "" }
  predicate EmailShown(p: CW.Party) { p.email != "" }
  predicate PhoneShown(p: CW.Party) { p.phone != "" }

  /** A person is never shown with a representative, even when the form
    * still holds one from before the switch to person. */
  lemma PersonHasNoRepresentative(p: CW.Party)
    requires !p.isCompany
    ensures !RepresentativeShown(p)
    ensures DocumentKind(p) != DocumentKind(p.(isCompany := true))
  {
  }

  /** The first clause's text: the scope, or a default when it is empty. */
  function ScopeText(form: CW.FormData): (r: string)
    ensures form.serviceScope != "" ==> r == form.serviceScope
    ensures form.serviceScope == "" ==> r == DefaultScope
    ensures r != ""
  {
    Text.Or(form.serviceScope, DefaultScope)
  }

  /** The means of payment as the second clause words it. */
  function PaymentLabel(payment: CW.Payment): (r: string)
    ensures payment.paymentMethod == "pix" ==> r == "PIX"
    ensures payment.paymentMethod == "transfer" ==> r == "transferência bancária"
    ensures payment.paymentMethod == "credit-card" ==> r == "cartão de crédito"
    ensures payment.paymentMethod == "installments" ==> r == Text.IntToString(payment.installments) + " parcelas"
    ensures payment.paymentMethod !in {"pix", "transfer", "credit-card", "installments"} ==> r == payment.paymentMethod
  {
    match payment.paymentMethod
    case "pix" => "PIX"
    case "transfer" => "transferência bancária"
    case "credit-card" => "cartão de crédito"
    case "installments" => Text.IntToString(payment.installments) + " parcelas"
    case _ => payment.paymentMethod
  }

  /** The number of instalments can be read back from the wording. */
  lemma InstallmentsReadBack(payment: CW.Payment)
    requires payment.paymentMethod == "installments" && payment.installments >= 0
    ensures var r := PaymentLabel(payment);
            var digits := r[..|r| - |" parcelas"|];
            (forall i :: 0 <= i < |digits| ==> '0' <= digits[i] <= '9')
            && Text.ParseNat(digits) == payment.installments
  {
    var r := PaymentLabel(payment);
    var n := Text.NatToString(payment.installments);
    assert r == n + " parcelas";
    assert r[..|r| - |" parcelas"|] == n;
    Text.ParsePrinted(payment.installments);
  }

  /** The payment conditions follow the wording only when given. */
  predicate ConditionsShown(payment: CW.Payment) { payment.conditions != "" }

  /** The late-fees paragraph. */
  predicate LateFeesShown(payment: CW.Payment)
  {
    Text.OrElse(payment.lateFees, "") != ""
  }

  /** The list of intermediate milestones. */
  predicate MilestonesShown(timeline: TL.TimelineData)
  {
    timeline.milestones.Some? && |timeline.milestones.value| > 0
  }

  /** No milestone list before the first milestone is added, and one after. */
  lemma MilestonesAfterAdd(timeline: TL.TimelineData)
    ensures timeline.milestones.None? ==> !MilestonesShown(timeline)
    ensures MilestonesShown(TL.AddMilestone(timeline))
  {
  }

  const ContractorFixed: seq<string> :=
    ["Fornecer as informações necessárias para a execução dos serviços;", "Efetuar os pagamentos conforme acordado;"]
  const ContractedFixed: seq<string> :=
    ["Executar os serviços conforme estabelecido neste contrato;", "Corrigir eventuais falhas identificadas pelo CONTRATANTE;"]

  /** The template's items, each rendered with a closing semicolon. */
  function Items(items: seq<string>): (r: seq<string>)
    ensures |r| == |items|
    ensures forall i :: 0 <= i < |r| ==> r[i] == items[i] + ";"
  {
    if items == [] then [] else [items[0] + ";"] + Items(items[1..])
  }

  /** The lines of an obligation list: the template's items when a
    * service type is chosen, then the two fixed lines. */
  function Obligations(form: CW.FormData, contractor: bool): (r: seq<string>)
    ensures var fixed := if contractor then ContractorFixed else ContractedFixed;
            |r| >= 2 && r[|r| - 2..] == fixed
    ensures form.serviceType.None? ==> |r| == 2
    ensures form.serviceType.Some? ==>
              var t := form.serviceType.value;
              var items := if contractor then CT.ContractorDuties(t) else CT.ContractedDuties(t);
              |r| == |items| + 2 && forall i :: 0 <= i < |items| ==> r[i] == items[i] + ";"
  {
    var fixed := if contractor then ContractorFixed else ContractedFixed;
    var items := match form.serviceType
      case None => []
      case Some(t) => if contractor then CT.ContractorDuties(t) else CT.ContractedDuties(t);
    Items(items) + fixed
  }

  /** Every line of an obligation list ends with a semicolon, and a chosen
    * service type gives five. */
  lemma ObligationLines(form: CW.FormData, contractor: bool)
    ensures var r := Obligations(form, contractor);
            forall i :: 0 <= i < |r| ==> |r[i]| > 0 && r[i][|r[i]| - 1] == ';'
    ensures form.serviceType.Some? ==> |Obligations(form, contractor)| == 5
  {
    var r := Obligations(form, contractor);
    var fixed := if contractor then ContractorFixed else ContractedFixed;
    FixedLinesEnd(fixed);
    LinesEnd(r, |r| - 2, fixed);
  }

  /** Both fixed lines end with a semicolon. */
  lemma FixedLinesEnd(fixed: seq<string>)
    requires fixed == ContractorFixed || fixed == ContractedFixed
    ensures forall k :: 0 <= k < |fixed| ==> |fixed[k]| > 0 && fixed[k][|fixed[k]| - 1] == ';'
  {
  }

  /** A list whose first `n` lines were closed with a semicolon and whose
    * remaining lines are semicolon-terminated lines has only such lines. */
  lemma LinesEnd(r: seq<string>, n: nat, fixed: seq<string>)
    requires n <= |r| && r[n..] == fixed
    requires forall i :: 0 <= i < n ==> exists x :: r[i] == x + ";"
    requires forall k :: 0 <= k < |fixed| ==> |fixed[k]| > 0 && fixed[k][|fixed[k]| - 1] == ';'
    ensures forall i :: 0 <= i < |r| ==> |r[i]| > 0 && r[i][|r[i]| - 1] == ';'
  {
    forall i | 0 <= i < |r| ensures |r[i]| > 0 && r[i][|r[i]| - 1] == ';' {
      if i >= n {
        assert r[i] == fixed[i - n];
      } else {
        var x :| r[i] == x + ";";
      }
    }
  }

  datatype OptionalClause = Confidentiality | DataProtection | IntellectualProperty | Insurance

  function ClauseHeading(c: OptionalClause): string
  {
    match c
    case Confidentiality => "CLÁUSULA DE CONFIDENCIALIDADE"
    case DataProtection => "CLÁUSULA DE PROTEÇÃO DE DADOS"
    case IntellectualProperty => "CLÁUSULA DE PROPRIEDADE INTELECTUAL"
    case Insurance => "CLÁUSULA DE SEGURO E RESPONSABILIDADE CIVIL"
  }

  function Enabled(clauses: CW.Clauses, c: OptionalClause): bool
  {
    match c
    case Confidentiality => clauses.confidentiality
    case DataProtection => clauses.personalData
    case IntellectualProperty => clauses.intellectualProperty
    case Insurance => clauses.insurance
  }

  /** The optional clauses the preview renders, in its fixed order. */
  function OptionalClauses(clauses: CW.Clauses): (r: seq<OptionalClause>)
    ensures forall c :: c in r <==> Enabled(clauses, c)
    ensures forall i, j :: 0 <= i < j < |r| ==> r[i] != r[j]
  {
    (if clauses.confidentiality then [Confidentiality] else [])
    + (if clauses.personalData then [DataProtection] else [])
    + (if clauses.intellectualProperty then [IntellectualProperty] else [])
    + (if clauses.insurance then [Insurance] else [])
  }

  /** The blank form of the wizard renders no optional clause, and ticking
    * one flag adds exactly that clause. */
  lemma ClausesFollowFlags(clauses: CW.Clauses)
    ensures OptionalClauses(CW.InitialForm.clauses) == []
    ensures !clauses.insurance ==>
              OptionalClauses(clauses.(insurance := true)) == OptionalClauses(clauses) + [Insurance]
    ensures |OptionalClauses(clauses)| <= 4
  {
  }
}
