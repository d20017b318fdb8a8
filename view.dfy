/**
 * The decisions the ticket form's rendering makes: which selectors and
 * widgets are shown, which banner follows a submission, and the properties
 * the store mapping (`connect`) derives from the configuration.
 */
module View {
  import opened Wrappers
  import opened JsCoercion
  import opened Entities

  /** The slice of the store's configuration and session the form is connected to.
      `defaultIsLocked` abstracts the truthiness of `default-is-locked * 1`;
      `sessionIsInternal` abstracts `session.isInternal == true`. */
  datatype StoreConfig = StoreConfig(
    language: string,
    supportedLanguages: seq<string>,
    defaultIsLocked: bool,
    allowAttachments: bool,
    sessionIsInternal: bool)

  /** The properties `connect` hands to the form. */
  datatype StoreProps = StoreProps(
    language: Option<string>,
    onlyOneSupportedLanguage: bool,
    isDefaultDepartmentLocked: bool,
    allowAttachments: bool,
    isInternal: bool)

  /** All properties of the form: those from its parent and those from the store. */
  datatype Props = Props(userLogged: bool, isStaff: bool, hasOnSuccess: bool, store: StoreProps)

  /** The configured language if it is supported, else the first supported one
      (`undefined`, here None, when none is supported). */
  function SelectedLanguage(language: string, supportedLanguages: seq<string>): (r: Option<string>)
    ensures r == Some(language) <==> language in supportedLanguages
    ensures r.Some? ==> r.value in supportedLanguages
    ensures r.None? <==> supportedLanguages == []
    ensures language !in supportedLanguages && supportedLanguages != [] ==> r == Some(supportedLanguages[0])
  {
    if language in supportedLanguages then Some(language)
    else if supportedLanguages != [] then Some(supportedLanguages[0])
    else None
  }

  function MapStoreToProps(config: StoreConfig): (p: StoreProps)
    ensures p.language == SelectedLanguage(config.language, config.supportedLanguages)
    ensures p.onlyOneSupportedLanguage <==> |config.supportedLanguages| == 1
    ensures p.isDefaultDepartmentLocked == config.defaultIsLocked
    ensures p.allowAttachments == config.allowAttachments
    ensures p.isInternal == config.sessionIsInternal
  {
    StoreProps(
      SelectedLanguage(config.language, config.supportedLanguages),
      |config.supportedLanguages| == 1,
      config.defaultIsLocked,
      config.allowAttachments,
      config.sessionIsInternal)
  }

  /** With a single supported language the form's language is that one, whatever is configured. */
  lemma SingleLanguageIsSelected(config: StoreConfig)
    requires MapStoreToProps(config).onlyOneSupportedLanguage
    ensures MapStoreToProps(config).language == Some(config.supportedLanguages[0])
  {
    var s := config.supportedLanguages;
    if config.language in s {
      assert s == [s[0]];
    }
  }

  /** `renderDepartments`: staff always get the department selector, and so does
      anyone when the default department is not locked. */
  function DepartmentSelectorShown(isDefaultDepartmentLocked: bool, isStaff: bool): (shown: bool)
    ensures isStaff ==> shown
    ensures !isDefaultDepartmentLocked ==> shown
    ensures isDefaultDepartmentLocked && !isStaff ==> !shown
  {
    if isDefaultDepartmentLocked && !isStaff then false else true
  }

  /** `isInternalNoRender`: false (null) only when a department is selected, the
      actor is not internal and the department is the franchise one. */
  function CanRenderClientSelectors(departments: seq<Entry>, departmentIndex: nat, isInternal: bool): (canRender: bool)
    ensures !canRender <==>
      (departmentIndex < |departments| && !isInternal && IsFranchise(departments[departmentIndex].id))
  {
    match At(departments, departmentIndex)
    case Some(department) => !(!isInternal && IsFranchise(department.id))
    case None => true
  }

  /** `renderClients` and `renderUsers` apply the same two guards. */
  function ClientSelectorsShown(isStaff: bool, isInternal: bool, departments: seq<Entry>, departmentIndex: nat)
    : (shown: bool)
    ensures shown <==>
      (isStaff && !(departmentIndex < |departments| && !isInternal && IsFranchise(departments[departmentIndex].id)))
  {
    if !isStaff then false
    else if !CanRenderClientSelectors(departments, departmentIndex, isInternal) then false
    else true
  }

  /** The banner below the form. */
  datatype Banner = NoBanner | SuccessBanner | ErrorBanner

  const SuccessMessage := "success"
  const FailMessage := "fail"

  /** `renderMessage`: the switch over the `message` state. */
  function RenderMessage(message: Option<string>): (b: Banner)
    ensures b == SuccessBanner <==> message == Some(SuccessMessage)
    ensures b == ErrorBanner <==> message == Some(FailMessage)
    ensures b == NoBanner <==> message != Some(SuccessMessage) && message != Some(FailMessage)
  {
    match message
    case Some(m) => if m == SuccessMessage then SuccessBanner else if m == FailMessage then ErrorBanner else NoBanner
    case None => NoBanner
  }

  /** What `render` shows. */
  datatype Layout = Layout(
    emailAndName: bool,
    departmentSelector: bool,
    clientSelector: bool,
    userSelector: bool,
    languageSelector: bool,
    fileUpload: bool,
    captcha: bool,
    banner: Banner)

  function Render(props: Props, departments: seq<Entry>, departmentIndex: nat, message: Option<string>): (l: Layout)
    ensures l.emailAndName == l.captcha == !props.userLogged
    ensures l.clientSelector == l.userSelector
    ensures l.languageSelector == !props.store.onlyOneSupportedLanguage
    ensures l.fileUpload == props.store.allowAttachments
    ensures l.departmentSelector == DepartmentSelectorShown(props.store.isDefaultDepartmentLocked, props.isStaff)
    ensures l.clientSelector == ClientSelectorsShown(props.isStaff, props.store.isInternal, departments, departmentIndex)
    ensures l.banner == RenderMessage(message)
  {
    var clientSelectors := ClientSelectorsShown(props.isStaff, props.store.isInternal, departments, departmentIndex);
    Layout(
      !props.userLogged,
      DepartmentSelectorShown(props.store.isDefaultDepartmentLocked, props.isStaff),
      clientSelectors,
      clientSelectors,
      !props.store.onlyOneSupportedLanguage,
      props.store.allowAttachments,
      !props.userLogged,
      RenderMessage(message))
  }

  /** A client or a client user can only be picked while the department picker
      is shown: the client selectors never appear under a hidden department selector. */
  lemma ClientSelectorNeedsDepartmentSelector(props: Props, departments: seq<Entry>, departmentIndex: nat, message: Option<string>)
    ensures Render(props, departments, departmentIndex, message).clientSelector
      ==> Render(props, departments, departmentIndex, message).departmentSelector
  {
  }

  /** Customer staff who pick the franchise department are offered no client or user choice. */
  lemma CustomerStaffFranchiseHidesClientSelectors(props: Props, departments: seq<Entry>, departmentIndex: nat, message: Option<string>)
    requires props.isStaff && !props.store.isInternal
    requires departmentIndex < |departments| && IsFranchise(departments[departmentIndex].id)
    ensures !Render(props, departments, departmentIndex, message).clientSelector
    ensures !Render(props, departments, departmentIndex, message).userSelector
  {
  }
}
