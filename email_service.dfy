/** The data shaping behind the notification mails (app/email_service.py):
    the value helpers of the admin notification, its conditional sections
    and password redaction, the extraction and labelling of login
    credentials for the separate credential mail, and the guard that refuses
    to send without SMTP credentials. Mail bodies are ordered lists of
    labelled lines; the HTML and CSS around them are not modelled. */
module EmailService {
  import opened Outcomes
  import opened Text

  /** The Python values a form dictionary holds here. */
  datatype PyValue = PyStr(s: string) | PyBool(b: bool) | PyNone

  /** The keys of the form dictionary that the service reads, plus the TikTok
      and WhatsApp login fields, which the form carries and the service never reads. */
  datatype Key =
    | BusinessName | Plan | ContactEmail | SubmissionTimestamp
    | InstagramHandle | OtherPlatforms | BusinessType | OtherBusinessType
    | ProductServiceDescription | CommonCustomerQuestion
    | DeliveryPickup | DeliveryServices | DeliveryOther | PickupMethod | PickupDetails
    | MenuText | MenuUpload | AdditionalDocs | HasFaqs | FaqUpload
    | SubmissionMethod | CredentialsHandling
    | InstagramEmail | InstagramPassword | FacebookEmail | FacebookPassword
    | OtherPlatformCredentials
    | ConsentToShare | ConfirmAccurate | ConsentAutomation
    | TiktokEmail | TiktokPassword | WhatsappNumber | WhatsappPassword

  /** The dictionary key each `Key` stands for. */
  function KeyName(k: Key): string {
    match k
    case BusinessName => "business_name"
    case Plan => "plan"
    case ContactEmail => "contact_email"
    case SubmissionTimestamp => "submission_timestamp"
    case InstagramHandle => "instagram_handle"
    case OtherPlatforms => "other_platforms"
    case BusinessType => "business_type"
    case OtherBusinessType => "other_business_type"
    case ProductServiceDescription => "product_service_description"
    case CommonCustomerQuestion => "common_customer_question"
    case DeliveryPickup => "delivery_pickup"
    case DeliveryServices => "delivery_services"
    case DeliveryOther => "delivery_other"
    case PickupMethod => "pickup_method"
    case PickupDetails => "pickup_details"
    case MenuText => "menu_text"
    case MenuUpload => "menu_upload"
    case AdditionalDocs => "additional_docs"
    case HasFaqs => "has_faqs"
    case FaqUpload => "faq_upload"
    case SubmissionMethod => "submission_method"
    case CredentialsHandling => "credentials_handling"
    case InstagramEmail => "instagram_email"
    case InstagramPassword => "instagram_password"
    case FacebookEmail => "facebook_email"
    case FacebookPassword => "facebook_password"
    case OtherPlatformCredentials => "other_platform_credentials"
    case ConsentToShare => "consent_to_share"
    case ConfirmAccurate => "confirm_accurate"
    case ConsentAutomation => "consent_automation"
    case TiktokEmail => "tiktok_email"
    case TiktokPassword => "tiktok_password"
    case WhatsappNumber => "whatsapp_number"
    case WhatsappPassword => "whatsapp_password"
  }

  type FormData = map<Key, PyValue>

  /** `form_data.get(key)`: `None` for a missing key. */
  function Get(d: FormData, k: Key): PyValue {
    if k in d then d[k] else PyNone
  }

  /** Python truthiness. */
  predicate Truthy(v: PyValue) {
    match v
    case PyStr(s) => s != []
    case PyBool(b) => b
    case PyNone => false
  }

  /** `str(v)`, as an f-string shows the value. */
  function Display(v: PyValue): string {
    match v
    case PyStr(s) => s
    case PyBool(b) => if b then "True" else "False"
    case PyNone => "None"
  }

  // ---------------------------------------------------------------------
  // Helpers of the admin notification

  /** `get_value`: the default for a missing value, `None`, `""` or `"null"`;
      otherwise the value itself. */
  function GetValue(d: FormData, k: Key, default: string): (r: PyValue)
    ensures Unset(Get(d, k)) ==> r == PyStr(default)
    ensures !Unset(Get(d, k)) ==> r == Get(d, k)
  {
    if Unset(Get(d, k)) then PyStr(default) else Get(d, k)
  }

  /** The values `get_value` replaces by its default. */
  predicate Unset(v: PyValue) {
    v == PyNone || v == PyStr("") || v == PyStr("null")
  }

  /** `format_boolean`: booleans become "Yes" or "No"; anything else passes through. */
  function FormatBoolean(v: PyValue): (r: PyValue)
    ensures !r.PyBool?
    ensures v.PyBool? ==> r == PyStr(if v.b then "Yes" else "No")
    ensures !v.PyBool? ==> r == v
  {
    match v
    case PyBool(b) => PyStr(if b then "Yes" else "No")
    case _ => v
  }

  const ImageExtensions: seq<string> := [".jpg", ".jpeg", ".png", ".gif", ".webp"]

  /** The URL values the file helpers accept: `True` has no `lower()` and no `split()`. */
  predicate UrlValue(v: PyValue) {
    v != PyBool(true)
  }

  /** `is_image_file`: false for an empty URL; otherwise whether the
      lower-cased URL ends with one of the image extensions. */
  function IsImageFile(url: PyValue): (r: bool)
    requires UrlValue(url)
    ensures r ==> url.PyStr? && url.s != []
    ensures url.PyStr? && url.s != [] ==> (r <==> exists e :: e in ImageExtensions && EndsWith(ToLower(url.s), e))
  {
    if !Truthy(url) then false
    else exists e :: e in ImageExtensions && EndsWith(ToLower(url.s), e)
  }

  /** `get_filename_from_url`: the text after the last `/`, or "File" for an empty URL. */
  function FilenameFromUrl(url: PyValue): (r: string)
    requires UrlValue(url)
    ensures !Truthy(url) ==> r == "File"
    ensures Truthy(url) ==> '/' !in r && EndsWith(url.s, r)
    ensures Truthy(url) && |r| < |url.s| ==> url.s[|url.s| - |r| - 1] == '/'
  {
    if !Truthy(url) then "File" else AfterLast(url.s, '/')
  }

  /** A name after a last `/` is the file name of the URL. */
  lemma {:induction false} FilenameAfterSlash(dir: string, name: string)
    requires '/' !in name
    ensures FilenameFromUrl(PyStr(dir + "/" + name)) == name
  {
    AfterLastOfSuffix(dir + "/", name);
  }

  lemma {:induction false} AfterLastOfSuffix(prefix: string, name: string)
    requires prefix != [] && prefix[|prefix| - 1] == '/' && '/' !in name
    ensures AfterLast(prefix + name, '/') == name
    decreases |name|
  {
    var s := prefix + name;
    if name == [] {
      assert s == prefix;
    } else {
      var n := |name|;
      assert s[|s| - 1] == name[n - 1];
      assert s[..|s| - 1] == prefix + name[..n - 1];
      AfterLastOfSuffix(prefix, name[..n - 1]);
      assert name[..n - 1] + [name[n - 1]] == name;
    }
  }

  /** What `create_file_text` writes after the label: "Not provided", or the
      file name, an image mark where it is one, and the URL last. */
  function FileDetail(url: PyValue): (r: string)
    requires UrlValue(url)
    ensures !Truthy(url) ==> r == NotProvided
    ensures Truthy(url) ==> |r| >= |url.s| + 3 && r[|r| - |url.s| - 3..] == " - " + url.s
    ensures Truthy(url) ==>
      r == (FilenameFromUrl(url) + (if IsImageFile(url) then " (Image)" else "")) + (" - " + url.s)
  {
    if !Truthy(url) then NotProvided
    else
      var head := FilenameFromUrl(url) + (if IsImageFile(url) then " (Image)" else "");
      var tail := " - " + url.s;
      SuffixOfConcat(head, tail);
      head + tail
  }

  lemma SuffixOfConcat(a: string, b: string)
    ensures (a + b)[|a + b| - |b|..] == b
  {
  }

  /** `create_file_text`: one bullet, `• Label: ` followed by the file detail. */
  function CreateFileText(url: PyValue, fileLabel: string): (r: string)
    requires UrlValue(url)
    ensures !Truthy(url) ==> r == "• " + fileLabel + ": " + NotProvided
    ensures Truthy(url) ==> EndsWith(r, " - " + url.s)
  {
    var head := "• " + fileLabel + ": ";
    SuffixOfConcat(head, FileDetail(url));
    head + FileDetail(url)
  }

  lemma NoDashInNotProvided(s: string)
    requires s == NotProvided
    ensures '-' !in s
  {
  }

  /** A given file is never reported as "Not provided", whatever its URL. */
  lemma FileDetailNotProvidedIff(url: PyValue)
    requires UrlValue(url)
    ensures FileDetail(url) == NotProvided <==> !Truthy(url)
  {
    if Truthy(url) {
      var r := FileDetail(url);
      var dash := |r| - |url.s| - 2;
      assert r[dash] == '-';
      if r == NotProvided {
        NoDashInNotProvided(r);
        assert false;
      }
    }
  }

  /** The submission time shown in the summary. `parsed` is what
      `datetime.fromisoformat(...).strftime(...)` yields, or `None` when it raises:
      an unset time reads "N/A", a string with a `T` is reformatted when it parses,
      and anything else is shown as it came. */
  function FormatTimestamp(ts: PyValue, parsed: Option<string>): (r: PyValue)
    ensures !Truthy(ts) ==> r == PyStr("N/A")
    ensures Truthy(ts) && ts.PyStr? && 'T' in ts.s && parsed.Some? ==> r == PyStr(parsed.value)
    ensures Truthy(ts) && !(ts.PyStr? && 'T' in ts.s && parsed.Some?) ==> r == ts
  {
    if !Truthy(ts) then PyStr("N/A")
    else if ts.PyStr? && 'T' in ts.s then
      match parsed
      case Some(f) => PyStr(f)
      case None => ts
    else ts
  }

  // ---------------------------------------------------------------------
  // The admin notification, as the ordered lines of its plain-text body

  /** The headings of the notification's plain-text body. */
  datatype Section =
    | Signup | BusinessSummary | FullSubmission | BusinessInformation
    | DeliveryAndPickup | MenuAndContent | SetupAndCredentials | LegalConfirmations

  function SectionTitle(s: Section): string {
    match s
    case Signup => "New AIChatFlows Signup!"
    case BusinessSummary => "Business Summary:"
    case FullSubmission => "📋 Full Form Submission:"
    case BusinessInformation => "Business Information:"
    case DeliveryAndPickup => "Delivery & Pickup:"
    case MenuAndContent => "Menu & Content:"
    case SetupAndCredentials => "Setup & Credentials:"
    case LegalConfirmations => "Legal Confirmations:"
  }

  /** A line of the body. Summary and detail lines carry the value their
      f-string formats; `LineText` renders a line. */
  datatype Line =
    | Heading(section: Section)
    /** `Label: value` in the summary. */
    | Summary(key: Key, value: PyValue)
    /** `• Label: value` in the full submission. */
    | Bullet(key: Key, value: PyValue)
    /** A file field, printed by `create_file_text`. */
    | FileNote(key: Key, url: PyValue)

  /** The label the notification prints before a field's value. */
  function Label(k: Key): string {
    match k
    case BusinessName => "Business Name"
    case Plan => "Plan"
    case ContactEmail => "Contact Email"
    case SubmissionTimestamp => "Submission Time"
    case InstagramHandle => "Instagram Handle"
    case OtherPlatforms => "Other Platforms"
    case BusinessType => "Business Type"
    case OtherBusinessType => "Specified Business Type"
    case ProductServiceDescription => "Product/Service Description"
    case CommonCustomerQuestion => "Common Customer Questions"
    case DeliveryPickup => "Delivery or Pickup"
    case DeliveryServices => "Delivery Services"
    case DeliveryOther => "Other Delivery Service"
    case PickupMethod => "Pickup Method"
    case PickupDetails => "Pickup Details"
    case MenuText => "Menu Text"
    case MenuUpload => "Uploaded Menu"
    case AdditionalDocs => "Additional Documents"
    case HasFaqs => "Has FAQs"
    case FaqUpload => "FAQ Document"
    case SubmissionMethod => "Submission Method"
    case CredentialsHandling => "Credential Handling"
    case InstagramEmail => "Instagram Username"
    case InstagramPassword => "Instagram Password"
    case FacebookEmail => "Facebook Username"
    case FacebookPassword => "Facebook Password"
    case ConsentToShare => "Consent to Share"
    case ConfirmAccurate => "Confirm Accurate"
    case ConsentAutomation => "Consent Automation"
    case _ => KeyName(k)
  }

  /** A line as the plain-text body prints it. */
  function LineText(l: Line): string
    requires Printable(l)
  {
    match l
    case Heading(s) => SectionTitle(s)
    case Summary(k, v) => if k == Plan then "Plan Selected: " + Display(v) + " Plan" else Label(k) + ": " + Display(v)
    case Bullet(k, v) => "• " + Label(k) + ": " + Display(v)
    case FileNote(k, url) => CreateFileText(url, Label(k))
  }

  /** A line can be printed: `create_file_text` fails on `True`. */
  predicate Printable(l: Line) {
    l.FileNote? ==> UrlValue(l.url)
  }

  const NotProvided := "Not provided"
  const OnlineMethod := "Submit through this page"

  /** The file values the notification passes to `create_file_text`. */
  predicate FileValuesUsable(d: FormData) {
    UrlValue(Get(d, MenuUpload)) && UrlValue(Get(d, AdditionalDocs)) &&
    (Truthy(Get(d, HasFaqs)) ==> UrlValue(Get(d, FaqUpload)))
  }

  function Detail(d: FormData, k: Key): Line {
    Bullet(k, GetValue(d, k, NotProvided))
  }

  /** A password is shown only as whether one was given. */
  function Redacted(d: FormData, k: Key): Line {
    Bullet(k, PyStr(if Truthy(Get(d, k)) then "Provided" else NotProvided))
  }

  predicate DeliveryShown(d: FormData) {
    Get(d, DeliveryPickup) == PyStr("Delivery") || Get(d, DeliveryPickup) == PyStr("Both")
  }

  predicate PickupShown(d: FormData) {
    Get(d, DeliveryPickup) == PyStr("Pickup") || Get(d, DeliveryPickup) == PyStr("Both")
  }

  predicate SpecifiedTypeShown(d: FormData) {
    Get(d, BusinessType) == PyStr("Other") && Truthy(Get(d, OtherBusinessType))
  }

  predicate LoginsShown(d: FormData) {
    Get(d, SubmissionMethod) == PyStr(OnlineMethod)
  }

  predicate FacebookShown(d: FormData) {
    LoginsShown(d) && Get(d, Plan) == PyStr("Pro")
  }

  function SummarySection(d: FormData, parsed: Option<string>): seq<Line> {
    [ Heading(Signup),
      Heading(BusinessSummary),
      Summary(BusinessName, Get(d, BusinessName)),
      Summary(Plan, Get(d, Plan)),
      Summary(ContactEmail, Get(d, ContactEmail)),
      Summary(SubmissionTimestamp, FormatTimestamp(Get(d, SubmissionTimestamp), parsed)) ]
  }

  function BusinessSection(d: FormData): seq<Line> {
    [ Heading(FullSubmission),
      Heading(BusinessInformation),
      Detail(d, BusinessName), Detail(d, InstagramHandle), Detail(d, OtherPlatforms), Detail(d, BusinessType) ]
    + (if SpecifiedTypeShown(d) then [Detail(d, OtherBusinessType)] else [])
    + [Detail(d, ProductServiceDescription), Detail(d, CommonCustomerQuestion)]
  }

  function DeliverySection(d: FormData): seq<Line> {
    [Heading(DeliveryAndPickup), Detail(d, DeliveryPickup)]
    + OptionalDetail(d, DeliveryShown(d), DeliveryServices)
    + OptionalDetail(d, DeliveryShown(d), DeliveryOther)
    + OptionalDetail(d, PickupShown(d), PickupMethod)
    + OptionalDetail(d, PickupShown(d), PickupDetails)
  }

  function MenuSection(d: FormData): seq<Line>
  {
    MenuLines(d) + (if Truthy(Get(d, HasFaqs)) then [FileLine(d, FaqUpload)] else [])
  }

  function MenuLines(d: FormData): seq<Line>
  {
    [ Heading(MenuAndContent),
      Detail(d, MenuText),
      FileLine(d, MenuUpload),
      FileLine(d, AdditionalDocs),
      Bullet(HasFaqs, FormatBoolean(Get(d, HasFaqs))) ]
  }

  function FileLine(d: FormData, k: Key): Line {
    FileNote(k, Get(d, k))
  }

  function SetupSection(d: FormData): seq<Line> {
    SetupLines(d)
    + (if LoginsShown(d) then InstagramLogin(d) else [])
    + (if FacebookShown(d) then FacebookLogin(d) else [])
  }

  function SetupLines(d: FormData): seq<Line> {
    [ Heading(SetupAndCredentials),
      Detail(d, Plan), Detail(d, SubmissionMethod),
      Bullet(CredentialsHandling, GetValue(d, CredentialsHandling, "Standard processing")) ]
  }

  function InstagramLogin(d: FormData): seq<Line> {
    LoginLines(d, InstagramEmail, InstagramPassword)
  }

  function FacebookLogin(d: FormData): seq<Line> {
    LoginLines(d, FacebookEmail, FacebookPassword)
  }

  /** A login: the user name as given, the password only as whether it is set. */
  function LoginLines(d: FormData, user: Key, password: Key): seq<Line> {
    [Detail(d, user), Redacted(d, password)]
  }

  function LegalSection(d: FormData): seq<Line> {
    [ Heading(LegalConfirmations),
      Bullet(ConsentToShare, FormatBoolean(Get(d, ConsentToShare))),
      Bullet(ConfirmAccurate, FormatBoolean(Get(d, ConfirmAccurate))),
      Bullet(ConsentAutomation, FormatBoolean(Get(d, ConsentAutomation))) ]
  }

  /** The plain-text body of the admin notification, section by section. */
  function AdminLines(d: FormData, parsed: Option<string>): seq<Line>
  {
    SummarySection(d, parsed) + BusinessSection(d) + DeliverySection(d)
      + MenuSection(d) + SetupSection(d) + LegalSection(d)
  }

  /** Some line of `lines` displays field `k`. */
  predicate Shows(lines: seq<Line>, k: Key) {
    exists l :: l in lines && !l.Heading? && l.key == k
  }

  lemma ShowsSetup(d: FormData, k: Key)
    ensures Shows(SetupSection(d), k) <==>
      k == Plan || k == SubmissionMethod || k == CredentialsHandling ||
      (LoginsShown(d) && (k == InstagramEmail || k == InstagramPassword)) ||
      (FacebookShown(d) && (k == FacebookEmail || k == FacebookPassword))
  {
    var instagram := if LoginsShown(d) then InstagramLogin(d) else [];
    var facebook := if FacebookShown(d) then FacebookLogin(d) else [];
    ShowsAppend(SetupLines(d), instagram, k);
    ShowsAppend(SetupLines(d) + instagram, facebook, k);
    ShowsSetupParts(d, k);
    ShowsIf(LoginsShown(d), InstagramLogin(d), k);
    ShowsIf(FacebookShown(d), FacebookLogin(d), k);
  }

  lemma ShowsSetupParts(d: FormData, k: Key)
    ensures Shows(SetupLines(d), k) <==> k == Plan || k == SubmissionMethod || k == CredentialsHandling
    ensures Shows(InstagramLogin(d), k) <==> k == InstagramEmail || k == InstagramPassword
    ensures Shows(FacebookLogin(d), k) <==> k == FacebookEmail || k == FacebookPassword
  {
    ShowsSetupLines(d, k);
    ShowsLogin(d, k, InstagramEmail, InstagramPassword);
    ShowsLogin(d, k, FacebookEmail, FacebookPassword);
  }

  lemma ShowsSetupLines(d: FormData, k: Key)
    ensures Shows(SetupLines(d), k) <==> k == Plan || k == SubmissionMethod || k == CredentialsHandling
  {
  }

  lemma ShowsLogin(d: FormData, k: Key, user: Key, password: Key)
    ensures Shows(LoginLines(d, user, password), k) <==> k == user || k == password
  {
  }

  lemma ShowsIf(c: bool, s: seq<Line>, k: Key)
    ensures Shows(if c then s else [], k) <==> c && Shows(s, k)
  {
  }

  lemma ShowsAppend(a: seq<Line>, b: seq<Line>, k: Key)
    ensures Shows(a + b, k) <==> Shows(a, k) || Shows(b, k)
  {
    if Shows(a + b, k) {
      var l :| l in a + b && !l.Heading? && l.key == k;
      assert l in a || l in b;
    }
  }

  lemma ShowsSummary(d: FormData, parsed: Option<string>, k: Key)
    ensures Shows(SummarySection(d, parsed), k) <==>
      k == BusinessName || k == Plan || k == ContactEmail || k == SubmissionTimestamp
  {
  }

  lemma ShowsBusiness(d: FormData, k: Key)
    ensures Shows(BusinessSection(d), k) <==>
      k == BusinessName || k == InstagramHandle || k == OtherPlatforms || k == BusinessType ||
      k == ProductServiceDescription || k == CommonCustomerQuestion ||
      (SpecifiedTypeShown(d) && k == OtherBusinessType)
  {
  }

  lemma ShowsDelivery(d: FormData, k: Key)
    ensures Shows(DeliverySection(d), k) <==>
      k == DeliveryPickup ||
      (DeliveryShown(d) && Truthy(Get(d, DeliveryServices)) && k == DeliveryServices) ||
      (DeliveryShown(d) && Truthy(Get(d, DeliveryOther)) && k == DeliveryOther) ||
      (PickupShown(d) && Truthy(Get(d, PickupMethod)) && k == PickupMethod) ||
      (PickupShown(d) && Truthy(Get(d, PickupDetails)) && k == PickupDetails)
  {
    var s0 := [Heading(DeliveryAndPickup), Detail(d, DeliveryPickup)];
    var s1 := OptionalDetail(d, DeliveryShown(d), DeliveryServices);
    var s2 := OptionalDetail(d, DeliveryShown(d), DeliveryOther);
    var s3 := OptionalDetail(d, PickupShown(d), PickupMethod);
    var s4 := OptionalDetail(d, PickupShown(d), PickupDetails);
    ShowsAppend(s0 + s1 + s2 + s3, s4, k);
    ShowsAppend(s0 + s1 + s2, s3, k);
    ShowsAppend(s0 + s1, s2, k);
    ShowsAppend(s0, s1, k);
    ShowsOptional(d, DeliveryShown(d), DeliveryServices, k);
    ShowsOptional(d, DeliveryShown(d), DeliveryOther, k);
    ShowsOptional(d, PickupShown(d), PickupMethod, k);
    ShowsOptional(d, PickupShown(d), PickupDetails, k);
    ShowsDeliveryHead(d, k);
  }

  /** The detail line for `f` when `shown` holds and a value was given. */
  function OptionalDetail(d: FormData, shown: bool, f: Key): seq<Line> {
    if shown && Truthy(Get(d, f)) then [Detail(d, f)] else []
  }

  lemma ShowsOptional(d: FormData, shown: bool, f: Key, k: Key)
    ensures Shows(OptionalDetail(d, shown, f), k) <==> shown && Truthy(Get(d, f)) && k == f
  {
    if shown && Truthy(Get(d, f)) {
      assert Detail(d, f) in OptionalDetail(d, shown, f);
    }
  }

  lemma ShowsDeliveryHead(d: FormData, k: Key)
    ensures Shows([Heading(DeliveryAndPickup), Detail(d, DeliveryPickup)], k) <==> k == DeliveryPickup
  {
    assert Detail(d, DeliveryPickup) in [Heading(DeliveryAndPickup), Detail(d, DeliveryPickup)];
  }

  lemma ShowsMenu(d: FormData, k: Key)
    ensures Shows(MenuSection(d), k) <==>
      k == MenuText || k == MenuUpload || k == AdditionalDocs || k == HasFaqs ||
      (Truthy(Get(d, HasFaqs)) && k == FaqUpload)
  {
    var faq := if Truthy(Get(d, HasFaqs)) then [FileLine(d, FaqUpload)] else [];
    ShowsAppend(MenuLines(d), faq, k);
    ShowsMenuLines(d, k);
    if Truthy(Get(d, HasFaqs)) {
      ShowsFaqLine(d, k);
    }
  }

  lemma ShowsMenuLines(d: FormData, k: Key)
    ensures Shows(MenuLines(d), k) <==> k == MenuText || k == MenuUpload || k == AdditionalDocs || k == HasFaqs
  {
  }

  lemma ShowsFaqLine(d: FormData, k: Key)
    ensures Shows([FileLine(d, FaqUpload)], k) <==> k == FaqUpload
  {
  }

  lemma ShowsLegal(d: FormData, k: Key)
    ensures Shows(LegalSection(d), k) <==> k == ConsentToShare || k == ConfirmAccurate || k == ConsentAutomation
  {
  }

  /** A field shows in the notification exactly when it shows in one of its sections. */
  lemma ShowsAdmin(d: FormData, parsed: Option<string>, k: Key)
    ensures Shows(AdminLines(d, parsed), k) <==>
      Shows(SummarySection(d, parsed), k) || Shows(BusinessSection(d), k) || Shows(DeliverySection(d), k) ||
      Shows(MenuSection(d), k) || Shows(SetupSection(d), k) || Shows(LegalSection(d), k)
  {
    ShowsConcat(SummarySection(d, parsed), BusinessSection(d), DeliverySection(d),
      MenuSection(d), SetupSection(d), LegalSection(d), k);
  }

  lemma ShowsConcat(s1: seq<Line>, s2: seq<Line>, s3: seq<Line>, s4: seq<Line>, s5: seq<Line>, s6: seq<Line>, k: Key)
    ensures Shows(s1 + s2 + s3 + s4 + s5 + s6, k) <==>
      Shows(s1, k) || Shows(s2, k) || Shows(s3, k) || Shows(s4, k) || Shows(s5, k) || Shows(s6, k)
  {
  }

  /** The Instagram login lines appear exactly for online submission. */
  lemma InstagramLinesShownIff(d: FormData, parsed: Option<string>, k: Key)
    requires k in {InstagramEmail, InstagramPassword}
    ensures Shows(AdminLines(d, parsed), k) <==> LoginsShown(d)
  {
    ShowsAdmin(d, parsed, k);
    ShowsSummary(d, parsed, k);
    ShowsBusiness(d, k);
    ShowsDelivery(d, k);
    ShowsMenu(d, k);
    ShowsSetup(d, k);
    ShowsLegal(d, k);
  }

  /** The Facebook login lines appear exactly for online submission on the Pro plan. */
  lemma FacebookLinesShownIff(d: FormData, parsed: Option<string>, k: Key)
    requires k in {FacebookEmail, FacebookPassword}
    ensures Shows(AdminLines(d, parsed), k) <==> FacebookShown(d)
  {
    ShowsAdmin(d, parsed, k);
    ShowsSummary(d, parsed, k);
    ShowsBusiness(d, k);
    ShowsDelivery(d, k);
    ShowsMenu(d, k);
    ShowsSetup(d, k);
    ShowsLegal(d, k);
  }

  /** Delivery lines appear only for "Delivery" or "Both", each only when its field is set. */
  lemma DeliveryLinesShownIff(d: FormData, parsed: Option<string>, k: Key)
    requires k in {DeliveryServices, DeliveryOther}
    ensures Shows(AdminLines(d, parsed), k) <==> DeliveryShown(d) && Truthy(Get(d, k))
  {
    ShowsAdmin(d, parsed, k);
    ShowsSummary(d, parsed, k);
    ShowsBusiness(d, k);
    ShowsDelivery(d, k);
    ShowsMenu(d, k);
    ShowsSetup(d, k);
    ShowsLegal(d, k);
  }

  /** Pickup lines appear only for "Pickup" or "Both", each only when its field is set. */
  lemma PickupLinesShownIff(d: FormData, parsed: Option<string>, k: Key)
    requires k in {PickupMethod, PickupDetails}
    ensures Shows(AdminLines(d, parsed), k) <==> PickupShown(d) && Truthy(Get(d, k))
  {
    ShowsAdmin(d, parsed, k);
    ShowsSummary(d, parsed, k);
    ShowsBusiness(d, k);
    ShowsDelivery(d, k);
    ShowsMenu(d, k);
    ShowsSetup(d, k);
    ShowsLegal(d, k);
  }

  /** "Specified Business Type" appears only for type "Other" with the other type set. */
  lemma SpecifiedTypeShownIff(d: FormData, parsed: Option<string>)
    ensures Shows(AdminLines(d, parsed), OtherBusinessType) <==> SpecifiedTypeShown(d)
  {
    ShowsAdmin(d, parsed, OtherBusinessType);
    ShowsSummary(d, parsed, OtherBusinessType);
    ShowsBusiness(d, OtherBusinessType);
    ShowsDelivery(d, OtherBusinessType);
    ShowsMenu(d, OtherBusinessType);
    ShowsSetup(d, OtherBusinessType);
    ShowsLegal(d, OtherBusinessType);
  }

  /** The FAQ document line appears exactly when the form says it has FAQs. */
  lemma FaqDocumentShownIff(d: FormData, parsed: Option<string>)
    ensures Shows(AdminLines(d, parsed), FaqUpload) <==> Truthy(Get(d, HasFaqs))
  {
    ShowsAdmin(d, parsed, FaqUpload);
    ShowsSummary(d, parsed, FaqUpload);
    ShowsBusiness(d, FaqUpload);
    ShowsDelivery(d, FaqUpload);
    ShowsMenu(d, FaqUpload);
    ShowsSetup(d, FaqUpload);
    ShowsLegal(d, FaqUpload);
  }

  /** Every line of a form whose file fields hold text or nothing can be printed. */
  lemma AdminLinesPrintable(d: FormData, parsed: Option<string>)
    requires FileValuesUsable(d)
    ensures AllPrintable(AdminLines(d, parsed))
  {
    SectionsPrintable(d, parsed);
    MenuPrintable(d);
    var s1, s2, s3, s4, s5, s6 := SummarySection(d, parsed), BusinessSection(d), DeliverySection(d),
      MenuSection(d), SetupSection(d), LegalSection(d);
    forall l | l in s1 + s2 + s3 + s4 + s5 + s6 ensures Printable(l) {
      assert l in s1 || l in s2 || l in s3 || l in s4 || l in s5 || l in s6;
    }
  }

  predicate AllPrintable(lines: seq<Line>) {
    forall l :: l in lines ==> Printable(l)
  }

  lemma SectionsPrintable(d: FormData, parsed: Option<string>)
    ensures AllPrintable(SummarySection(d, parsed))
    ensures AllPrintable(BusinessSection(d))
    ensures AllPrintable(DeliverySection(d))
    ensures AllPrintable(SetupSection(d))
    ensures AllPrintable(LegalSection(d))
  {
  }

  lemma MenuPrintable(d: FormData)
    requires FileValuesUsable(d)
    ensures AllPrintable(MenuSection(d))
  {
  }

  /** A line of six concatenated sections that shows in none but one lies in that one. */
  lemma LocateLine(s1: seq<Line>, s2: seq<Line>, s3: seq<Line>, s4: seq<Line>, s5: seq<Line>, s6: seq<Line>,
                   l: Line, n: nat)
    requires l in s1 + s2 + s3 + s4 + s5 + s6 && !l.Heading? && 1 <= n <= 6
    requires n != 1 ==> !Shows(s1, l.key)
    requires n != 2 ==> !Shows(s2, l.key)
    requires n != 3 ==> !Shows(s3, l.key)
    requires n != 4 ==> !Shows(s4, l.key)
    requires n != 5 ==> !Shows(s5, l.key)
    requires n != 6 ==> !Shows(s6, l.key)
    ensures l in [s1, s2, s3, s4, s5, s6][n - 1]
  {
  }

  /** Password lines say only whether a password was given. */
  lemma PasswordsRedacted(d: FormData, parsed: Option<string>, l: Line)
    requires l in AdminLines(d, parsed) && !l.Heading? && (l.key == InstagramPassword || l.key == FacebookPassword)
    ensures l == Bullet(l.key, PyStr("Provided")) || l == Bullet(l.key, PyStr(NotProvided))
  {
    ShowsSummary(d, parsed, l.key);
    ShowsBusiness(d, l.key);
    ShowsDelivery(d, l.key);
    ShowsMenu(d, l.key);
    ShowsLegal(d, l.key);
    LocateLine(SummarySection(d, parsed), BusinessSection(d), DeliverySection(d),
      MenuSection(d), SetupSection(d), LegalSection(d), l, 5);
    SetupPasswordLine(d, l);
  }

  lemma SetupPasswordLine(d: FormData, l: Line)
    requires l in SetupSection(d) && !l.Heading? && (l.key == InstagramPassword || l.key == FacebookPassword)
    ensures l == Redacted(d, l.key)
  {
    assert l in SetupLines(d) || l in InstagramLogin(d) || l in FacebookLogin(d);
  }

  /** The fields the notification displays; of the passwords it uses only whether they are set. */
  const DisplayedKeys: set<Key> := {
    BusinessName, Plan, ContactEmail, SubmissionTimestamp, InstagramHandle, OtherPlatforms,
    BusinessType, OtherBusinessType, ProductServiceDescription, CommonCustomerQuestion,
    DeliveryPickup, DeliveryServices, DeliveryOther, PickupMethod, PickupDetails,
    MenuText, MenuUpload, AdditionalDocs, HasFaqs, FaqUpload,
    SubmissionMethod, CredentialsHandling, InstagramEmail, FacebookEmail,
    ConsentToShare, ConfirmAccurate, ConsentAutomation }

  /** Two forms the notification cannot tell apart. */
  predicate LookAlike(d1: FormData, d2: FormData) {
    (forall j :: j in DisplayedKeys ==> Get(d1, j) == Get(d2, j)) &&
    Truthy(Get(d1, InstagramPassword)) == Truthy(Get(d2, InstagramPassword)) &&
    Truthy(Get(d1, FacebookPassword)) == Truthy(Get(d2, FacebookPassword))
  }

  lemma DetailAlike(d1: FormData, d2: FormData, k: Key)
    requires Get(d1, k) == Get(d2, k)
    ensures Detail(d1, k) == Detail(d2, k)
  {
  }

  /** The notification is a function of the displayed fields and of whether
      each password is set: no password value, and nothing else, can change it. */
  lemma AdminLinesReadOnlyDisplayed(d1: FormData, d2: FormData, parsed: Option<string>)
    requires LookAlike(d1, d2)
    ensures AdminLines(d1, parsed) == AdminLines(d2, parsed)
  {
    SectionsAlike(d1, d2, parsed);
    SetupAlike(d1, d2);
  }

  lemma SectionsAlike(d1: FormData, d2: FormData, parsed: Option<string>)
    requires LookAlike(d1, d2)
    ensures SummarySection(d1, parsed) == SummarySection(d2, parsed)
    ensures BusinessSection(d1) == BusinessSection(d2)
    ensures DeliverySection(d1) == DeliverySection(d2)
    ensures MenuSection(d1) == MenuSection(d2)
    ensures LegalSection(d1) == LegalSection(d2)
  {
    DetailsAlike(d1, d2);
    SummaryAlike(d1, d2, parsed);
    BusinessAlike(d1, d2);
    DeliveryAlike(d1, d2);
    MenuAlike(d1, d2);
  }

  lemma DetailsAlike(d1: FormData, d2: FormData)
    requires LookAlike(d1, d2)
    ensures forall j :: j in DisplayedKeys ==> Detail(d1, j) == Detail(d2, j)
  {
    forall j | j in DisplayedKeys ensures Detail(d1, j) == Detail(d2, j) {
      DetailAlike(d1, d2, j);
    }
  }

  lemma SummaryAlike(d1: FormData, d2: FormData, parsed: Option<string>)
    requires LookAlike(d1, d2)
    ensures SummarySection(d1, parsed) == SummarySection(d2, parsed)
  {
  }

  lemma BusinessAlike(d1: FormData, d2: FormData)
    requires LookAlike(d1, d2) && forall j :: j in DisplayedKeys ==> Detail(d1, j) == Detail(d2, j)
    ensures BusinessSection(d1) == BusinessSection(d2)
  {
  }

  lemma DeliveryAlike(d1: FormData, d2: FormData)
    requires LookAlike(d1, d2) && forall j :: j in DisplayedKeys ==> Detail(d1, j) == Detail(d2, j)
    ensures DeliverySection(d1) == DeliverySection(d2)
  {
  }

  lemma MenuAlike(d1: FormData, d2: FormData)
    requires LookAlike(d1, d2) && forall j :: j in DisplayedKeys ==> Detail(d1, j) == Detail(d2, j)
    ensures MenuSection(d1) == MenuSection(d2)
  {
  }

  lemma SetupAlike(d1: FormData, d2: FormData)
    requires LookAlike(d1, d2)
    ensures SetupSection(d1) == SetupSection(d2)
  {
    SetupKeysDisplayed();
    assert SetupLines(d1) == SetupLines(d2) by {
      DetailAlike(d1, d2, Plan);
      DetailAlike(d1, d2, SubmissionMethod);
    }
    assert LoginsShown(d1) == LoginsShown(d2) && FacebookShown(d1) == FacebookShown(d2);
    assert InstagramLogin(d1) == InstagramLogin(d2) by {
      DetailAlike(d1, d2, InstagramEmail);
      assert Redacted(d1, InstagramPassword) == Redacted(d2, InstagramPassword);
    }
    assert FacebookLogin(d1) == FacebookLogin(d2) by {
      DetailAlike(d1, d2, FacebookEmail);
      assert Redacted(d1, FacebookPassword) == Redacted(d2, FacebookPassword);
    }
  }

  lemma SetupKeysDisplayed()
    ensures Plan in DisplayedKeys && SubmissionMethod in DisplayedKeys && CredentialsHandling in DisplayedKeys
    ensures InstagramEmail in DisplayedKeys && FacebookEmail in DisplayedKeys
  {
  }

  lemma PasswordsNotDisplayed()
    ensures InstagramPassword !in DisplayedKeys && FacebookPassword !in DisplayedKeys
  {
  }

  /** Two forms that differ in a password of the same truthiness read the same. */
  lemma PasswordValueNeverShown(d: FormData, parsed: Option<string>, k: Key, v: PyValue, w: PyValue)
    requires k == InstagramPassword || k == FacebookPassword
    requires Truthy(v) == Truthy(w)
    ensures AdminLines(d[k := v], parsed) == AdminLines(d[k := w], parsed)
  {
    var d1, d2 := d[k := v], d[k := w];
    PasswordsNotDisplayed();
    forall j | j in DisplayedKeys ensures Get(d1, j) == Get(d2, j) {
      assert j != k;
    }
    assert Get(d1, k) == v && Get(d2, k) == w;
    AdminLinesReadOnlyDisplayed(d1, d2, parsed);
  }

  /** The TikTok and WhatsApp logins and the other-platform credentials never
      reach the notification. */
  lemma UnreadFieldsIgnored(d: FormData, parsed: Option<string>, k: Key, v: PyValue)
    requires k !in DisplayedKeys && k != InstagramPassword && k != FacebookPassword
    ensures AdminLines(d[k := v], parsed) == AdminLines(d, parsed)
  {
    AdminLinesReadOnlyDisplayed(d, d[k := v], parsed);
  }

  /** The body as `send_admin_notification` grows it: each section's fixed
      lines, then its conditional lines appended in turn. */
  method ComposeAdminText(d: FormData, parsed: Option<string>) returns (lines: seq<Line>)
    ensures lines == AdminLines(d, parsed)
  {
    lines := SummarySection(d, parsed);
    var business := ComposeBusinessSection(d);
    var delivery := ComposeDeliverySection(d);
    var menu := ComposeMenuSection(d);
    var setup := ComposeSetupSection(d);
    lines := lines + business + delivery + menu + setup + LegalSection(d);
  }

  method ComposeBusinessSection(d: FormData) returns (lines: seq<Line>)
    ensures lines == BusinessSection(d)
  {
    lines := [Heading(FullSubmission), Heading(BusinessInformation),
      Detail(d, BusinessName), Detail(d, InstagramHandle), Detail(d, OtherPlatforms), Detail(d, BusinessType)];
    if Get(d, BusinessType) == PyStr("Other") && Truthy(Get(d, OtherBusinessType)) {
      lines := lines + [Detail(d, OtherBusinessType)];
    }
    lines := lines + [Detail(d, ProductServiceDescription), Detail(d, CommonCustomerQuestion)];
  }

  method ComposeDeliverySection(d: FormData) returns (lines: seq<Line>)
    ensures lines == DeliverySection(d)
  {
    lines := [Heading(DeliveryAndPickup), Detail(d, DeliveryPickup)];
    var choice := Get(d, DeliveryPickup);
    if choice == PyStr("Delivery") || choice == PyStr("Both") {
      if Truthy(Get(d, DeliveryServices)) { lines := lines + [Detail(d, DeliveryServices)]; }
      if Truthy(Get(d, DeliveryOther)) { lines := lines + [Detail(d, DeliveryOther)]; }
    }
    if choice == PyStr("Pickup") || choice == PyStr("Both") {
      if Truthy(Get(d, PickupMethod)) { lines := lines + [Detail(d, PickupMethod)]; }
      if Truthy(Get(d, PickupDetails)) { lines := lines + [Detail(d, PickupDetails)]; }
    }
  }

  method ComposeMenuSection(d: FormData) returns (lines: seq<Line>)
    ensures lines == MenuSection(d)
  {
    lines := MenuLines(d);
    if Truthy(Get(d, HasFaqs)) {
      lines := lines + [FileLine(d, FaqUpload)];
    }
  }

  method ComposeSetupSection(d: FormData) returns (lines: seq<Line>)
    ensures lines == SetupSection(d)
  {
    lines := SetupLines(d);
    if Get(d, SubmissionMethod) == PyStr(OnlineMethod) {
      lines := lines + InstagramLogin(d);
      if Get(d, Plan) == PyStr("Pro") {
        lines := lines + FacebookLogin(d);
      }
    }
  }

  // ---------------------------------------------------------------------
  // The credential mail

  /** The fields `send_secure_credentials` copies, in this order. */
  const CredentialFields: seq<Key> :=
    [InstagramEmail, InstagramPassword, FacebookEmail, FacebookPassword, OtherPlatformCredentials]

  /** The entries of `fields` whose value is truthy, in field order, with that value:
      the `credentials` dictionary after the loop over `fields`. */
  function Credentials(d: FormData, fields: seq<Key>): (r: seq<(Key, PyValue)>)
    ensures |r| <= |fields|
  {
    if fields == [] then []
    else
      var k := fields[|fields| - 1];
      Credentials(d, fields[..|fields| - 1]) + (if Truthy(Get(d, k)) then [(k, Get(d, k))] else [])
  }

  /** An entry is extracted exactly when its field is listed and truthy, and it
      carries the form's value. */
  lemma {:induction false} CredentialsExactly(d: FormData, fields: seq<Key>, k: Key, v: PyValue)
    ensures (k, v) in Credentials(d, fields) <==> k in fields && Truthy(Get(d, k)) && v == Get(d, k)
  {
    if fields != [] {
      var init := fields[..|fields| - 1];
      CredentialsExactly(d, init, k, v);
      assert fields == init + [fields[|fields| - 1]];
    }
  }

  /** Only the listed fields matter: two forms that agree on them give the same bundle. */
  lemma {:induction false} CredentialsReadOnlyFields(d1: FormData, d2: FormData, fields: seq<Key>)
    requires forall k :: k in fields ==> Get(d1, k) == Get(d2, k)
    ensures Credentials(d1, fields) == Credentials(d2, fields)
  {
    if fields != [] {
      CredentialsReadOnlyFields(d1, d2, fields[..|fields| - 1]);
    }
  }

  /** The TikTok and WhatsApp logins never reach the credential mail. */
  lemma TiktokNeverSent(d: FormData, k: Key, v: PyValue)
    requires k in {TiktokEmail, TiktokPassword, WhatsappNumber, WhatsappPassword}
    ensures Credentials(d[k := v], CredentialFields) == Credentials(d, CredentialFields)
  {
    CredentialsReadOnlyFields(d[k := v], d, CredentialFields);
  }

  /** The loop of `send_secure_credentials` that fills `credentials`. */
  method ExtractCredentials(d: FormData) returns (creds: seq<(Key, PyValue)>)
    ensures creds == Credentials(d, CredentialFields)
  {
    creds := [];
    var i := 0;
    while i < |CredentialFields|
      invariant 0 <= i <= |CredentialFields|
      invariant creds == Credentials(d, CredentialFields[..i])
    {
      var field := CredentialFields[i];
      assert CredentialFields[..i + 1][..i] == CredentialFields[..i];
      if Truthy(Get(d, field)) {
        creds := creds + [(field, Get(d, field))];
      }
      i := i + 1;
    }
    assert CredentialFields[..i] == CredentialFields;
  }

  /** The platform part of a credential label: the key with `_email` and then
      `_password` removed, title-cased. */
  function Platform(name: string): string {
    Title(ReplaceAll(ReplaceAll(name, "_email", ""), "_password", ""))
  }

  /** "Username" for a key containing `email`, "Password" for any other. */
  function FieldType(name: string): string {
    if Contains(name, "email") then "Username" else "Password"
  }

  /** The label a credential line carries. */
  function CredentialLabel(k: Key): string {
    NameLabel(KeyName(k))
  }

  /** `"{platform} {field_type}"` for a field name. */
  function NameLabel(name: string): string {
    if name == "other_platform_credentials" then "Other Platforms Credentials"
    else Platform(name) + " " + FieldType(name)
  }

  /** A `<platform>_email` key is labelled "<Platform> Username". */
  lemma UsernameLabel(name: string, p: string, suffix: string)
    requires suffix == "_email" && name == p + suffix
    requires p != [] && forall i :: 0 <= i < |p| ==> IsLower(p[i])
    ensures NameLabel(name) == [UpperChar(p[0])] + p[1..] + " Username"
  {
    assert name[|name| - 1] != "other_platform_credentials"[25];
    StripSuffix(p, suffix);
    ReplaceAbsent(p, "_password", "");
    TitleWord(p);
    assert name[|p| + 1..][..5] == suffix[1..];
    assert StartsAt(name, |p| + 1, "email");
  }

  /** A `<platform>_password` key is labelled "<Platform> Password". */
  lemma PasswordLabel(name: string, p: string, suffix: string)
    requires suffix == "_password" && name == p + suffix
    requires p != [] && forall i :: 0 <= i < |p| ==> IsLower(p[i])
    requires !Contains(name, "email")
    ensures NameLabel(name) == [UpperChar(p[0])] + p[1..] + " Password"
  {
    assert name[|name| - 1] != "other_platform_credentials"[25];
    ReplaceSkip(p, suffix, "_email", "");
    PasswordKept(suffix);
    StripSuffix(p, suffix);
    TitleWord(p);
    LabelJoin(name, Title(p), "Password", " Password");
  }

  /** A label assembled from its platform and its kind. */
  lemma LabelJoin(name: string, platform: string, kind: string, tail: string)
    requires name != "other_platform_credentials"
    requires Platform(name) == platform && FieldType(name) == kind && tail == " " + kind
    ensures NameLabel(name) == platform + tail
  {
  }

  lemma PasswordKept(suffix: string)
    requires suffix == "_password"
    ensures ReplaceAll(suffix, "_email", "") == suffix
  {
    assert suffix[..6][1] != "_email"[1];
    ReplaceAbsent(suffix[1..], "_email", "");
  }

  /** A name in which no `e` is followed by `m` does not contain "email". */
  lemma NoEmailIn(name: string)
    requires forall i :: 0 <= i < |name| - 1 ==> !(name[i] == 'e' && name[i + 1] == 'm')
    ensures !Contains(name, "email")
  {
    forall i: nat | i + 5 <= |name| ensures !StartsAt(name, i, "email") {
      assert name[i..i + 5][0] == name[i] && name[i..i + 5][1] == name[i + 1];
    }
  }

  /** The labels of the five extracted fields. */
  lemma CredentialLabels(k: Key)
    ensures k == InstagramEmail ==> CredentialLabel(k) == "Instagram Username"
    ensures k == InstagramPassword ==> CredentialLabel(k) == "Instagram Password"
    ensures k == FacebookEmail ==> CredentialLabel(k) == "Facebook Username"
    ensures k == FacebookPassword ==> CredentialLabel(k) == "Facebook Password"
    ensures k == OtherPlatformCredentials ==> CredentialLabel(k) == "Other Platforms Credentials"
  {
    if k == InstagramEmail {
      InstagramUsernameLabel(k, KeyName(k));
    } else if k == InstagramPassword {
      InstagramPasswordLabel(k, KeyName(k));
    } else if k == FacebookEmail {
      FacebookUsernameLabel(k, KeyName(k));
    } else if k == FacebookPassword {
      FacebookPasswordLabel(k, KeyName(k));
    }
  }

  lemma InstagramUsernameLabel(k: Key, name: string)
    requires k == InstagramEmail && name == KeyName(k)
    ensures NameLabel(name) == "Instagram Username"
  {
    InstagramSpelled("instagram", " Username", "Instagram Username");
    UsernameLabel(name, "instagram", "_email");
  }

  lemma InstagramPasswordLabel(k: Key, name: string)
    requires k == InstagramPassword && name == KeyName(k)
    ensures NameLabel(name) == "Instagram Password"
  {
    NoEmailInKey(k);
    InstagramSpelled("instagram", " Password", "Instagram Password");
    PasswordLabel(name, "instagram", "_password");
  }

  lemma FacebookUsernameLabel(k: Key, name: string)
    requires k == FacebookEmail && name == KeyName(k)
    ensures NameLabel(name) == "Facebook Username"
  {
    FacebookSpelled("facebook", " Username", "Facebook Username");
    UsernameLabel(name, "facebook", "_email");
  }

  lemma FacebookPasswordLabel(k: Key, name: string)
    requires k == FacebookPassword && name == KeyName(k)
    ensures NameLabel(name) == "Facebook Password"
  {
    NoEmailInKey(k);
    FacebookSpelled("facebook", " Password", "Facebook Password");
    PasswordLabel(name, "facebook", "_password");
  }

  /** The two labels of the Instagram fields, spelled out. */
  lemma InstagramSpelled(p: string, kind: string, r: string)
    requires p == "instagram"
    requires (kind == " Username" && r == "Instagram Username") || (kind == " Password" && r == "Instagram Password")
    ensures [UpperChar(p[0])] + p[1..] + kind == r
  {
  }

  /** The two labels of the Facebook fields, spelled out. */
  lemma FacebookSpelled(p: string, kind: string, r: string)
    requires p == "facebook"
    requires (kind == " Username" && r == "Facebook Username") || (kind == " Password" && r == "Facebook Password")
    ensures [UpperChar(p[0])] + p[1..] + kind == r
  {
  }

  lemma NoEmailInKey(k: Key)
    requires k == InstagramPassword || k == FacebookPassword
    ensures !Contains(KeyName(k), "email")
  {
    NoEmailIn(KeyName(k));
  }

  /** Removing a pattern that ends the string and cannot start earlier leaves the rest. */
  lemma StripSuffix(p: string, suffix: string)
    requires suffix != [] && suffix[0] !in p
    ensures ReplaceAll(p + suffix, suffix, "") == p
  {
    ReplaceSkip(p, suffix, suffix, "");
    assert suffix[|suffix|..] == [];
  }

  /** One credential line of the plain-text mail. Its prefix is the two
      characters backslash and `n`: the source escapes the backslash, so no
      line break is written. */
  function CredentialEntry(k: Key, v: PyValue): string {
    "\\n" + CredentialLabel(k) + ": " + Display(v)
  }

  /** The credential lines of the plain-text mail, in extraction order. */
  function CredentialText(creds: seq<(Key, PyValue)>): string {
    if creds == [] then []
    else
      var last := creds[|creds| - 1];
      CredentialText(creds[..|creds| - 1]) + CredentialEntry(last.0, last.1)
  }

  /** The loop of `send_secure_credentials` that grows `text_content`. */
  method ComposeCredentialText(creds: seq<(Key, PyValue)>) returns (text: string)
    ensures text == CredentialText(creds)
  {
    text := [];
    var i := 0;
    while i < |creds|
      invariant 0 <= i <= |creds|
      invariant text == CredentialText(creds[..i])
    {
      var (field, value) := creds[i];
      assert creds[..i + 1][..i] == creds[..i];
      text := text + CredentialEntry(field, value);
      i := i + 1;
    }
    assert creds[..i] == creds;
  }

  /** Every extracted credential is written, label and value, on a line of its own. */
  lemma {:induction false} CredentialTextHasEntries(creds: seq<(Key, PyValue)>, i: nat)
    requires i < |creds|
    ensures Contains(CredentialText(creds), CredentialEntry(creds[i].0, creds[i].1))
  {
    var init := creds[..|creds| - 1];
    var entry := CredentialEntry(creds[i].0, creds[i].1);
    if i == |creds| - 1 {
      assert StartsAt(entry, 0, entry);
      ContainsRight(CredentialText(init), entry, entry);
    } else {
      assert creds[i] == init[i];
      CredentialTextHasEntries(init, i);
      ContainsLeft(CredentialText(init), CredentialEntry(creds[|creds| - 1].0, creds[|creds| - 1].1), entry);
    }
  }

  /** The text holds no line break of its own: `\\n` is two characters. Only a
      value holding a line break can put one there. */
  lemma {:induction false} CredentialTextNoNewline(creds: seq<(Key, PyValue)>)
    requires forall e :: e in creds ==> e.0 in CredentialFields && '\n' !in Display(e.1)
    ensures '\n' !in CredentialText(creds)
  {
    if creds != [] {
      var init := creds[..|creds| - 1];
      var last := creds[|creds| - 1];
      assert forall e :: e in init ==> e in creds;
      CredentialTextNoNewline(init);
      LabelNoNewline(last.0);
      var entry := CredentialEntry(last.0, last.1);
      assert entry == "\\n" + CredentialLabel(last.0) + ": " + Display(last.1);
      assert '\n' !in entry;
    }
  }

  lemma LabelNoNewline(k: Key)
    requires k in CredentialFields
    ensures '\n' !in CredentialLabel(k)
  {
    KeyNameNoNewline(k, KeyName(k));
    NameLabelNoNewline(KeyName(k));
  }

  /** A label holds a line break only if its field name does. */
  lemma NameLabelNoNewline(name: string)
    requires '\n' !in name
    ensures '\n' !in NameLabel(name)
  {
    if name != "other_platform_credentials" {
      var stripped := ReplaceAll(name, "_email", "");
      ReplaceChars(name, "_email", "", '\n');
      ReplaceChars(stripped, "_password", "", '\n');
      TitleChars(ReplaceAll(stripped, "_password", ""), false, '\n');
    }
  }

  lemma KeyNameNoNewline(k: Key, name: string)
    requires k in CredentialFields && name == KeyName(k)
    ensures '\n' !in name
  {
    assert k == InstagramEmail || k == InstagramPassword || k == FacebookEmail ||
      k == FacebookPassword || k == OtherPlatformCredentials;
    CredentialKeyNoNewline(k, name);
  }

  lemma CredentialKeyNoNewline(k: Key, name: string)
    requires k == InstagramEmail || k == InstagramPassword || k == FacebookEmail ||
      k == FacebookPassword || k == OtherPlatformCredentials
    requires name == KeyName(k)
    ensures '\n' !in name
  {
  }

  /** Nothing is extracted exactly when none of the five fields is truthy. */
  lemma CredentialsEmptyIff(d: FormData)
    ensures Credentials(d, CredentialFields) == [] <==> forall k :: k in CredentialFields ==> !Truthy(Get(d, k))
  {
    var creds := Credentials(d, CredentialFields);
    if creds != [] {
      CredentialsExactly(d, CredentialFields, creds[0].0, creds[0].1);
    }
    forall k | k in CredentialFields && Truthy(Get(d, k)) ensures creds != [] {
      CredentialsExactly(d, CredentialFields, k, Get(d, k));
    }
  }

  /** `send_secure_credentials`: with nothing to send it answers True and no
      mail is composed; otherwise the credential lines are composed and the
      answer is `send_email`'s. */
  method SendSecureCredentials(cfg: SmtpConfig, d: FormData, delivered: bool)
    returns (sent: bool, mail: Option<string>)
    ensures Credentials(d, CredentialFields) == [] ==> sent && mail == None
    ensures Credentials(d, CredentialFields) != [] ==>
      mail == Some(CredentialText(Credentials(d, CredentialFields))) && sent == SendEmail(cfg, delivered)
  {
    var creds := ExtractCredentials(d);
    if creds == [] {
      return true, None;
    }
    var text := ComposeCredentialText(creds);
    sent := SendEmail(cfg, delivered);
    mail := Some(text);
  }

  // ---------------------------------------------------------------------
  // The SMTP guard

  /** The SMTP settings read from the environment; `None` for an unset variable. */
  datatype SmtpConfig = SmtpConfig(username: Option<string>, password: Option<string>)

  predicate Configured(cfg: SmtpConfig) {
    cfg.username.Some? && cfg.username.value != [] && cfg.password.Some? && cfg.password.value != []
  }

  /** `send_email`: without a username and a password nothing is attempted and
      the answer is False; otherwise the answer is the transport's outcome,
      which the model takes as the parameter `delivered`. */
  function SendEmail(cfg: SmtpConfig, delivered: bool): (sent: bool)
    ensures sent ==> Configured(cfg)
    ensures Configured(cfg) ==> sent == delivered
  {
    if !Configured(cfg) then false else delivered
  }

  method SendAdminNotification(cfg: SmtpConfig, d: FormData, parsed: Option<string>, delivered: bool)
    returns (sent: bool, body: seq<Line>)
    requires FileValuesUsable(d)
    ensures body == AdminLines(d, parsed)
    ensures sent == SendEmail(cfg, delivered)
  {
    body := ComposeAdminText(d, parsed);
    sent := SendEmail(cfg, delivered);
  }
}
