/** The wizard's scope step: a free-text scope with a suggestion taken
  * from the service type's template, or, for the service types that have
  * one, a questionnaire the user can switch to. */
module ServiceScopeStep {
  import opened Outcome
  import CT = ContractTemplates

  /** `getScopeSuggestion`: nothing without a service type, else the
    * template's scope. */
  function ScopeSuggestion(serviceType: Option<CT.ServiceType>): (r: string)
    ensures serviceType.None? <==> r == ""
    ensures serviceType.Some? ==> r == CT.TemplateScope(serviceType.value)
  {
    match serviceType
    case None => ""
    case Some(t) => CT.TemplateScope(t)
  }

  /** `hasDynamicQuestions`: a service type is set and its entry in the
    * service-type table lists at least one question. */
  predicate HasDynamicQuestions(serviceType: Option<CT.ServiceType>)
  {
    serviceType.Some? && |CT.QuestionsOf(serviceType.value)| > 0
  }

  /** Only development and design offer a questionnaire. */
  lemma QuestionnaireTypes(serviceType: Option<CT.ServiceType>)
    ensures HasDynamicQuestions(serviceType) <==> serviceType == Some(CT.Development) || serviceType == Some(CT.Design)
  {
  }

  class ScopeStep {
    var showDynamicQuestions: bool

    constructor()
      ensures !showDynamicQuestions
    {
      showDynamicQuestions := false;
    }

    /** `handleToggleQuestions`. */
    method ToggleQuestions()
      modifies this
      ensures showDynamicQuestions == !old(showDynamicQuestions)
    {
      showDynamicQuestions := !showDynamicQuestions;
    }

    /** The box offering the questionnaire, with its toggle button. */
    predicate OfferShown(serviceType: Option<CT.ServiceType>)
    {
      HasDynamicQuestions(serviceType)
    }

    /** The questionnaire replaces the text editor. */
    predicate QuestionnaireShown(serviceType: Option<CT.ServiceType>)
      reads this
    {
      showDynamicQuestions && HasDynamicQuestions(serviceType)
    }

    /** The free-text editor, shown whenever the questionnaire is not. */
    predicate EditorShown(serviceType: Option<CT.ServiceType>)
      reads this
    {
      !QuestionnaireShown(serviceType)
    }

    /** The suggestion box: a service type is chosen and the questionnaire
      * is switched off. */
    predicate SuggestionShown(serviceType: Option<CT.ServiceType>)
      reads this
    {
      serviceType.Some? && !showDynamicQuestions
    }

    /** "Usar esta sugestão": shown with the suggestion when it is not
      * empty. */
    predicate UseSuggestionShown(serviceType: Option<CT.ServiceType>)
      reads this
    {
      SuggestionShown(serviceType) && ScopeSuggestion(serviceType) != ""
    }

    /** What the step shows: exactly one of editor and questionnaire; a
      * service type without questions always gets the editor, with the
      * suggestion and its button unless the toggle was left on. */
    lemma ViewsExclusive(serviceType: Option<CT.ServiceType>)
      ensures QuestionnaireShown(serviceType) != EditorShown(serviceType)
      ensures QuestionnaireShown(serviceType) ==> serviceType == Some(CT.Development) || serviceType == Some(CT.Design)
      ensures QuestionnaireShown(serviceType) ==> !SuggestionShown(serviceType)
      ensures UseSuggestionShown(serviceType) <==> serviceType.Some? && !showDynamicQuestions
    {
      QuestionnaireTypes(serviceType);
    }
  }

  /** The new scope "Usar esta sugestão" hands to the wizard: the
    * suggestion, exactly. */
  function UseSuggestion(serviceType: Option<CT.ServiceType>): (r: string)
    requires serviceType.Some?
    ensures r == CT.TemplateScope(serviceType.value) && r != ""
  {
    ScopeSuggestion(serviceType)
  }
}
