/** The static tables behind the contract wizard: the ten service types,
  * the contract template of each (title, scope suggestion and the parties'
  * obligations) and the questionnaire of the services that have one. */
module ContractTemplates {
  import opened Outcome

  datatype ServiceType = Development | Design | Marketing | Consulting | Writing | Photo | Education | Engineering
                       | Content | Other

  /** The service types in the order they are declared. */
  const AllServiceTypes: seq<ServiceType> :=
    [Development, Design, Marketing, Consulting, Writing, Photo, Education, Engineering, Content, Other]

  function ServiceTypeId(t: ServiceType): string
  {
    match t
    case Development => "development"
    case Design => "design"
    case Marketing => "marketing"
    case Consulting => "consulting"
    case Writing => "writing"
    case Photo => "photo"
    case Education => "education"
    case Engineering => "engineering"
    case Content => "content"
    case Other => "other"
  }

  /** Every service type is declared exactly once, and the ids differ. */
  lemma AllServiceTypesListed()
    ensures forall t :: t in AllServiceTypes
    ensures forall i, j :: 0 <= i < j < |AllServiceTypes| ==> AllServiceTypes[i] != AllServiceTypes[j]
    ensures forall s, t :: ServiceTypeId(s) == ServiceTypeId(t) ==> s == t
  {
    forall t ensures t in AllServiceTypes {
      assert AllServiceTypes[IndexOf(t)] == t;
    }
  }

  datatype QuestionType = TextInput | Textarea | NumberInput | Select | Radio | Checkbox | DateInput

  datatype Section = Scope | Payment | Timeline | Deliverables | Terms | Rights | Support

  function SectionId(s: Section): string
  {
    match s
    case Scope => "scope"
    case Payment => "payment"
    case Timeline => "timeline"
    case Deliverables => "deliverables"
    case Terms => "terms"
    case Rights => "rights"
    case Support => "support"
  }

  /** The value a `dependsOn` condition compares with: a text or a flag. */
  datatype CondValue = WhenText(s: string) | WhenFlag(b: bool)

  datatype Condition = Condition(question: string, value: CondValue)

  /** A question of a questionnaire; `options` holds the option values. */
  datatype Question = Question(id: string, kind: QuestionType, section: Section, options: Option<seq<string>>,
                               required: bool, dependsOn: Option<Condition>)

  datatype ServiceTypeConfig = ServiceTypeConfig(id: ServiceType, caption: string, icon: string,
                                                 questions: seq<Question>)

  // `contractTemplates`: a record total over the service types, given here
  // field by field.

  /** The title of the service type's contract. */
  function TemplateTitle(t: ServiceType): (r: string)
    ensures r != ""
  {
    match t
    case Development => DevelopmentTitle
    case Design => DesignTitle
    case Marketing => MarketingTitle
    case Consulting => ConsultingTitle
    case Writing => WritingTitle
    case Photo => PhotoTitle
    case Education => EducationTitle
    case Engineering => EngineeringTitle
    case Content => ContentTitle
    case Other => OtherTitle
  }

  const DevelopmentTitle: string := "CONTRATO DE PRESTAÇÃO DE SERVIÇOS DE DESENVOLVIMENTO WEB/SOFTWARE"
  const DesignTitle: string := "CONTRATO DE PRESTAÇÃO DE SERVIÇOS DE DESIGN GRÁFICO"
  const MarketingTitle: string := "CONTRATO DE PRESTAÇÃO DE SERVIÇOS DE MARKETING DIGITAL"
  const ConsultingTitle: string := "CONTRATO DE PRESTAÇÃO DE SERVIÇOS DE CONSULTORIA"
  const WritingTitle: string := "CONTRATO DE PRESTAÇÃO DE SERVIÇOS DE REDAÇÃO E CONTEÚDO"
  const PhotoTitle: string := "CONTRATO DE PRESTAÇÃO DE SERVIÇOS DE FOTOGRAFIA/VÍDEO"
  const EducationTitle: string := "CONTRATO DE PRESTAÇÃO DE SERVIÇOS DE EDUCAÇÃO/TREINAMENTO"
  const EngineeringTitle: string := "CONTRATO DE PRESTAÇÃO DE SERVIÇOS DE ENGENHARIA/CONSTRUÇÃO"
  const ContentTitle: string := "CONTRATO DE PRESTAÇÃO DE SERVIÇOS DE PRODUÇÃO DE CONTEÚDO"
  const OtherTitle: string := "CONTRATO DE PRESTAÇÃO DE SERVIÇOS"

  /** The scope suggestion of the service type's contract. */
  function TemplateScope(t: ServiceType): (r: string)
    ensures r != ""
  {
    match t
    case Development => DevelopmentScope
    case Design => DesignScope
    case Marketing => MarketingScope
    case Consulting => ConsultingScope
    case Writing => WritingScope
    case Photo => PhotoScope
    case Education => EducationScope
    case Engineering => EngineeringScope
    case Content => ContentScope
    case Other => OtherScope
  }

  const DevelopmentScope: string := "O objeto do presente contrato é o desenvolvimento de [TIPO_DE_PROJETO] utilizando [TECNOLOGIAS], conforme especificações detalhadas no Anexo I."
  const DesignScope: string := "O objeto do presente contrato é a prestação de serviços de design gráfico para criação de [ITENS_DESIGN], conforme especificações detalhadas no briefing anexo a este contrato."
  const MarketingScope: string := "O objeto do presente contrato é a prestação de serviços de marketing digital, incluindo [CANAIS], pelo período de [PERÍODO]."
  const ConsultingScope: string := "O objeto do presente contrato é a prestação de serviços de consultoria [NATUREZA_CONSULTORIA], pelo período de [PERÍODO]."
  const WritingScope: string := "O objeto do presente contrato é a prestação de serviços de produção de conteúdo, incluindo [TIPO_CONTEÚDO], na quantidade de [QUANTIDADE_PEÇAS]."
  const PhotoScope: string := "O objeto do presente contrato é a prestação de serviços de [TIPO_SERVIÇO], a ser realizado em [LOCAL_PRODUÇÃO]."
  const EducationScope: string := "O objeto do presente contrato é a prestação de serviços de treinamento sobre [TEMA_TREINAMENTO], na modalidade [MODALIDADE]."
  const EngineeringScope: string := "O objeto do presente contrato é a prestação de serviços de [TIPO_SERVIÇO_ENGENHARIA], conforme projeto anexo a este contrato."
  const ContentScope: string := "O objeto do presente contrato é a prestação de serviços de produção de conteúdo para [FINALIDADE_CONTEÚDO]."
  const OtherScope: string := "O objeto do presente contrato é a prestação de serviços de [TIPO_SERVIÇO], conforme especificações detalhadas no Anexo I deste contrato."

  /** The client's obligations. */
  function ContractorDuties(t: ServiceType): (r: seq<string>)
    ensures |r| == 3
  {
    match t
    case Development => DevelopmentContractorDuties
    case Design => DesignContractorDuties
    case Marketing => MarketingContractorDuties
    case Consulting => ConsultingContractorDuties
    case Writing => WritingContractorDuties
    case Photo => PhotoContractorDuties
    case Education => EducationContractorDuties
    case Engineering => EngineeringContractorDuties
    case Content => ContentContractorDuties
    case Other => OtherContractorDuties
  }

  const DevelopmentContractorDuties: seq<string> := [
    "Fornecer informações e conteúdos necessários em tempo hábil",
    "Realizar homologações dentro dos prazos estipulados",
    "Fornecer acesso aos sistemas necessários para implementação"
  ]
  const DesignContractorDuties: seq<string> := [
    "Fornecer briefing detalhado e referências visuais",
    "Realizar aprovações dentro dos prazos estipulados",
    "Fornecer conteúdo textual a ser incluído nos designs"
  ]
  const MarketingContractorDuties: seq<string> := [
    "Fornecer acesso às contas de mídia social",
    "Aprovar conteúdos dentro dos prazos estipulados",
    "Fornecer informações sobre o público-alvo"
  ]
  const ConsultingContractorDuties: seq<string> := [
    "Fornecer informações necessárias para a consultoria",
    "Disponibilizar equipe para reuniões e workshops",
    "Implementar as recomendações acordadas"
  ]
  const WritingContractorDuties: seq<string> := [
    "Fornecer briefing detalhado sobre o conteúdo",
    "Realizar aprovações dentro dos prazos estipulados",
    "Fornecer informações técnicas quando necessário"
  ]
  const PhotoContractorDuties: seq<string> := [
    "Disponibilizar locação para as sessões",
    "Fornecer briefing visual e referências",
    "Realizar aprovações dentro dos prazos estipulados"
  ]
  const EducationContractorDuties: seq<string> := [
    "Garantir a presença dos participantes",
    "Fornecer infraestrutura adequada (caso aplicável)",
    "Fornecer informações sobre o nível de conhecimento dos participantes"
  ]
  const EngineeringContractorDuties: seq<string> := [
    "Fornecer acesso ao local dos serviços",
    "Aprovar etapas conforme cronograma",
    "Fornecer documentação necessária"
  ]
  const ContentContractorDuties: seq<string> := [
    "Fornecer informações e diretrizes de marca",
    "Aprovar conteúdo dentro dos prazos estipulados",
    "Fornecer acesso a materiais necessários"
  ]
  const OtherContractorDuties: seq<string> := [
    "Fornecer informações necessárias para execução dos serviços",
    "Realizar pagamentos conforme acordado",
    "Aprovar entregas dentro dos prazos estipulados"
  ]

  /** The provider's obligations. */
  function ContractedDuties(t: ServiceType): (r: seq<string>)
    ensures |r| == 3
  {
    match t
    case Development => DevelopmentContractedDuties
    case Design => DesignContractedDuties
    case Marketing => MarketingContractedDuties
    case Consulting => ConsultingContractedDuties
    case Writing => WritingContractedDuties
    case Photo => PhotoContractedDuties
    case Education => EducationContractedDuties
    case Engineering => EngineeringContractedDuties
    case Content => ContentContractedDuties
    case Other => OtherContractedDuties
  }

  const DevelopmentContractedDuties: seq<string> := [
    "Desenvolver o projeto conforme as especificações acordadas",
    "Manter o código-fonte organizado e documentado",
    "Realizar testes de qualidade antes da entrega"
  ]
  const DesignContractedDuties: seq<string> := [
    "Criar designs alinhados ao briefing fornecido",
    "Entregar os arquivos nos formatos especificados",
    "Realizar até o número acordado de revisões"
  ]
  const MarketingContractedDuties: seq<string> := [
    "Criar e implementar estratégias de marketing digital",
    "Fornecer relatórios de performance periódicos",
    "Otimizar campanhas conforme resultados"
  ]
  const ConsultingContractedDuties: seq<string> := [
    "Realizar análises aprofundadas conforme escopo",
    "Entregar relatórios e recomendações",
    "Estar disponível para esclarecimentos"
  ]
  const WritingContractedDuties: seq<string> := [
    "Produzir conteúdo original e livre de plágio",
    "Entregar os textos nos prazos acordados",
    "Realizar revisões conforme feedback"
  ]
  const PhotoContractedDuties: seq<string> := [
    "Realizar a produção com equipamentos adequados",
    "Entregar material editado conforme acordado",
    "Garantir a qualidade técnica das imagens/vídeos"
  ]
  const EducationContractedDuties: seq<string> := [
    "Preparar material didático adequado",
    "Ministrar o treinamento conforme planejado",
    "Avaliar o aprendizado dos participantes"
  ]
  const EngineeringContractedDuties: seq<string> := [
    "Executar os serviços conforme projeto e normas técnicas",
    "Utilizar materiais de qualidade",
    "Cumprir prazos e cronograma estabelecido"
  ]
  const ContentContractedDuties: seq<string> := [
    "Criar conteúdo original alinhado às diretrizes",
    "Entregar conforme cronograma estabelecido",
    "Realizar ajustes conforme feedback"
  ]
  const OtherContractedDuties: seq<string> := [
    "Executar os serviços conforme especificações",
    "Manter comunicação clara durante todo o projeto",
    "Cumprir os prazos estabelecidos"
  ]

  /** A question with no options and no condition. */
  function Plain(id: string, kind: QuestionType, section: Section, required: bool): Question
  {
    Question(id, kind, section, None, required, None)
  }

  /** A question offering the given option values. */
  function Choice(id: string, kind: QuestionType, section: Section, options: seq<string>, required: bool): Question
  {
    Question(id, kind, section, Some(options), required, None)
  }

  /** An optional question shown only under a condition. */
  function FollowUp(id: string, kind: QuestionType, section: Section, cond: Condition): Question
  {
    Question(id, kind, section, None, false, Some(cond))
  }

  const DevelopmentQuestions: seq<Question> := [
    Choice("dev_scope", Select, Scope, ["website", "landing", "ecommerce", "webapp", "mobile", "desktop", "api"], true),
    Plain("dev_tech", Textarea, Scope, true),
    Choice("dev_content_resp", Radio, Scope, ["client", "contractor", "shared"], true),
    Plain("dev_revisions", NumberInput, Scope, true),
    Plain("dev_homolog", Textarea, Deliverables, false),
    Plain("dev_deploy", Textarea, Deliverables, false),
    Plain("dev_integration", Checkbox, Scope, false),
    FollowUp("dev_integration_details", Textarea, Scope, Condition("dev_integration", WhenFlag(true))),
    Choice("dev_intellectual", Radio, Rights, ["client", "contractor", "shared"], true),
    Plain("dev_documentation", Checkbox, Deliverables, false),
    Plain("dev_training", Checkbox, Deliverables, false),
    FollowUp("dev_training_details", Textarea, Deliverables, Condition("dev_training", WhenFlag(true))),
    Choice("dev_support", Radio, Support, ["no", "yes_limited", "yes_unlimited"], true),
    FollowUp("dev_support_period", TextInput, Support, Condition("dev_support", WhenText("yes_limited"))),
    Plain("dev_bugs", Textarea, Support, false),
    Choice("dev_maintenance", Radio, Support, ["no", "yes"], false),
    FollowUp("dev_maintenance_details", Textarea, Support, Condition("dev_maintenance", WhenText("yes"))),
    Plain("dev_security", Checkbox, Terms, false),
    FollowUp("dev_security_details", Textarea, Terms, Condition("dev_security", WhenFlag(true)))
  ]

  const DesignQuestions: seq<Question> := [
    Choice("design_items", Checkbox, Scope, ["logo", "brand_id", "social_media", "print", "web", "packaging"], true),
    Choice("design_formats", Select, Deliverables, ["ai", "psd", "pdf", "jpg", "png", "svg"], true),
    Plain("design_concepts", NumberInput, Scope, true),
    Plain("design_revisions", NumberInput, Scope, true),
    Choice("design_images", Radio, Scope, ["client", "designer"], true),
    Choice("design_stock", Radio, Scope, ["yes", "no"], false),
    Choice("design_rights", Radio, Rights, ["client", "designer", "shared"], true),
    Choice("design_editable", Radio, Deliverables, ["yes", "no"], true),
    Choice("design_brand_manual", Radio, Scope, ["yes", "no"], false),
    Choice("design_delivery_manual", Radio, Deliverables, ["yes", "no"], false),
    Plain("design_media_adapt", Checkbox, Scope, false),
    FollowUp("design_media_details", Textarea, Scope, Condition("design_media_adapt", WhenFlag(true))),
    Plain("design_timeline", Checkbox, Timeline, false),
    FollowUp("design_timeline_details", Textarea, Timeline, Condition("design_timeline", WhenFlag(true)))
  ]

  /** `serviceTypes`. */
  const ServiceTypes: seq<ServiceTypeConfig> := [
    ServiceTypeConfig(Development, "Desenvolvimento Web/Software", "development", DevelopmentQuestions),
    ServiceTypeConfig(Design, "Design Gráfico", "design", DesignQuestions),
    ServiceTypeConfig(Marketing, "Marketing Digital", "marketing", []),
    ServiceTypeConfig(Consulting, "Consultoria", "consulting", []),
    ServiceTypeConfig(Writing, "Redação e Conteúdo", "writing", []),
    ServiceTypeConfig(Photo, "Foto e Vídeo", "photo", []),
    ServiceTypeConfig(Education, "Educação e Treinamento", "education", []),
    ServiceTypeConfig(Engineering, "Engenharia/Construção", "engineering", []),
    ServiceTypeConfig(Content, "Produção de Conteúdo", "content", []),
    ServiceTypeConfig(Other, "Outro tipo de serviço", "other", [])
  ]

  /** The table lists the service types once each, in declaration order,
    * each with its own id as icon, and only development and design have
    * questions. */
  lemma ServiceTypesTable()
    ensures |ServiceTypes| == |AllServiceTypes|
    ensures forall i :: 0 <= i < |ServiceTypes| ==> ServiceTypes[i].id == AllServiceTypes[i]
    ensures forall i :: 0 <= i < |ServiceTypes| ==> ServiceTypes[i].icon == ServiceTypeId(ServiceTypes[i].id)
    ensures forall i :: 0 <= i < |ServiceTypes| ==>
              (|ServiceTypes[i].questions| > 0 <==> ServiceTypes[i].id == Development || ServiceTypes[i].id == Design)
  {
    forall i | 0 <= i < |ServiceTypes|
      ensures ServiceTypes[i].id == AllServiceTypes[i]
      ensures ServiceTypes[i].icon == ServiceTypeId(ServiceTypes[i].id)
      ensures |ServiceTypes[i].questions| > 0 <==> ServiceTypes[i].id == Development || ServiceTypes[i].id == Design
    {
      ServiceTypeRow(i);
    }
  }

  /** Row `i` of the table, checked on its own. */
  lemma ServiceTypeRow(i: nat)
    requires i < |ServiceTypes|
    ensures i < |AllServiceTypes| && ServiceTypes[i].id == AllServiceTypes[i]
    ensures ServiceTypes[i].icon == ServiceTypeId(ServiceTypes[i].id)
    ensures |ServiceTypes[i].questions| > 0 <==> ServiceTypes[i].id == Development || ServiceTypes[i].id == Design
  {
  }

  /** `serviceTypes.find(s => s.id === t)`. */
  function FindConfig(configs: seq<ServiceTypeConfig>, t: ServiceType): (r: Option<ServiceTypeConfig>)
    ensures r.Some? <==> exists i :: 0 <= i < |configs| && configs[i].id == t
    ensures r.Some? ==> r.value.id == t && r.value in configs
  {
    if configs == [] then None
    else if configs[0].id == t then Some(configs[0])
    else
      var r := FindConfig(configs[1..], t);
      assert forall i :: 0 < i < |configs| ==> configs[i] == configs[1..][i - 1];
      r
  }

  /** Every service type has a configuration: its own row of the table. */
  lemma ConfigOfEveryType(t: ServiceType)
    ensures FindConfig(ServiceTypes, t).Some?
    ensures FindConfig(ServiceTypes, t).value == ServiceTypes[IndexOf(t)]
  {
    var i := IndexOf(t);
    ServiceTypeRow(i);
    var r := FindConfig(ServiceTypes, t);
    var k :| 0 <= k < |ServiceTypes| && ServiceTypes[k] == r.value;
    ServiceTypeRow(k);
    AllServiceTypesListed();
  }

  /** The position of a service type in the table. */
  function IndexOf(t: ServiceType): (i: nat)
    ensures i < |AllServiceTypes| && AllServiceTypes[i] == t
  {
    match t
    case Development => 0
    case Design => 1
    case Marketing => 2
    case Consulting => 3
    case Writing => 4
    case Photo => 5
    case Education => 6
    case Engineering => 7
    case Content => 8
    case Other => 9
  }

  /** The questions of a service type. */
  function QuestionsOf(t: ServiceType): (r: seq<Question>)
    ensures |r| > 0 <==> t == Development || t == Design
  {
    ConfigOfEveryType(t);
    ServiceTypesTable();
    FindConfig(ServiceTypes, t).value.questions
  }

  /** Question ids are unique. */
  ghost predicate UniqueIds(qs: seq<Question>)
  {
    forall i, j :: 0 <= i < j < |qs| ==> qs[i].id != qs[j].id
  }

  /** A condition fits its target: a flag condition targets a checkbox
    * without options, a text condition a radio question offering that
    * value. */
  ghost predicate FitsTarget(cond: Condition, target: Question)
  {
    target.id == cond.question
    && match cond.value
       case WhenFlag(b) => b && target.kind == Checkbox && target.options.None?
       case WhenText(v) => target.kind == Radio && target.options.Some? && v in target.options.value
  }

  /** Every condition names a question declared earlier in the same list,
    * and fits it. */
  ghost predicate ConditionsWellFormed(qs: seq<Question>)
  {
    forall i :: 0 <= i < |qs| && qs[i].dependsOn.Some? ==>
      exists j :: 0 <= j < i && FitsTarget(qs[i].dependsOn.value, qs[j])
  }

  /** The position of a development question, read from its id's length
    * and, where two ids share a length, the letter after the common `dev_`
    * prefix. */
  function DevelopmentPosition(id: string): int
  {
    match |id|
    case 9 => 0
    case 13 => 3
    case 10 => 5
    case 17 => 9
    case 18 => 13
    case 8 => if id[4] == 't' then 1 else 14
    case 16 => if id[4] == 'c' then 2 else 8
    case 11 => if id[4] == 'h' then 4 else 12
    case 15 => if id[4] == 'i' then 6 else 15
    case 23 => if id[4] == 'i' then 7 else 16
    case 12 => if id[4] == 't' then 10 else 17
    case 20 => if id[4] == 't' then 11 else 18
    case _ => -1
  }

  /** Development question `i`'s id reads back as `i`. */
  lemma DevelopmentPositionOf(i: nat)
    requires i < |DevelopmentQuestions|
    ensures DevelopmentPosition(DevelopmentQuestions[i].id) == i
  {
  }

  lemma DevelopmentIdsUnique()
    ensures UniqueIds(DevelopmentQuestions)
  {
    var qs := DevelopmentQuestions;
    forall i, j | 0 <= i < j < |qs| ensures qs[i].id != qs[j].id {
      DevelopmentPositionOf(i);
      DevelopmentPositionOf(j);
    }
  }

  lemma DevelopmentConditions()
    ensures ConditionsWellFormed(DevelopmentQuestions)
  {
    var qs := DevelopmentQuestions;
    forall i | 0 <= i < |qs| && qs[i].dependsOn.Some?
      ensures exists j :: 0 <= j < i && FitsTarget(qs[i].dependsOn.value, qs[j])
    {
      var parents := map[7 := 6, 11 := 10, 13 := 12, 16 := 15, 18 := 17];
      assert i in parents;
      assert FitsTarget(qs[i].dependsOn.value, qs[parents[i]]);
    }
  }

  lemma DesignIdsUnique()
    ensures UniqueIds(DesignQuestions)
  {
  }

  lemma DesignConditions()
    ensures ConditionsWellFormed(DesignQuestions)
  {
    var qs := DesignQuestions;
    forall i | 0 <= i < |qs| && qs[i].dependsOn.Some?
      ensures exists j :: 0 <= j < i && FitsTarget(qs[i].dependsOn.value, qs[j])
    {
      var parents := map[11 := 10, 13 := 12];
      assert i in parents;
      assert FitsTarget(qs[i].dependsOn.value, qs[parents[i]]);
    }
  }

  /** Every questionnaire has unique ids and well-formed conditions. */
  lemma QuestionnairesWellFormed(t: ServiceType)
    ensures UniqueIds(QuestionsOf(t)) && ConditionsWellFormed(QuestionsOf(t))
  {
    ConfigOfEveryType(t);
    DevelopmentIdsUnique();
    DevelopmentConditions();
    DesignIdsUnique();
    DesignConditions();
  }
}
