/** The onboarding form and its server-side validation (app/models.py):
    three fields restricted to fixed choices, mandatory consent, and login
    fields whose requirement depends on the submission method and the plan. */
module Models {
  import opened Outcomes

  datatype Plan = Starter | Pro
  /** `NoDelivery` is the choice spelled "None" in the form. */
  datatype DeliveryPickup = Delivery | Pickup | Both | NoDelivery
  datatype SubmissionMethod = SubmitOnline | InPersonSetup

  function PlanName(p: Plan): string {
    match p
    case Starter => "Starter"
    case Pro => "Pro"
  }

  function DeliveryPickupName(d: DeliveryPickup): string {
    match d
    case Delivery => "Delivery"
    case Pickup => "Pickup"
    case Both => "Both"
    case NoDelivery => "None"
  }

  function SubmissionMethodName(m: SubmissionMethod): string {
    match m
    case SubmitOnline => "Submit through this page"
    case InPersonSetup => "Request In-Person Setup"
  }

  /** The `Literal["Starter", "Pro"]` check: exactly the two spellings are accepted. */
  function ParsePlan(s: string): (r: Option<Plan>)
    ensures forall p: Plan :: r == Some(p) <==> PlanName(p) == s
  {
    if s == "Starter" then Some(Starter)
    else if s == "Pro" then Some(Pro)
    else None
  }

  /** The `Literal["Delivery", "Pickup", "Both", "None"]` check. */
  function ParseDeliveryPickup(s: string): (r: Option<DeliveryPickup>)
    ensures forall d: DeliveryPickup :: r == Some(d) <==> DeliveryPickupName(d) == s
  {
    if s == "Delivery" then Some(Delivery)
    else if s == "Pickup" then Some(Pickup)
    else if s == "Both" then Some(Both)
    else if s == "None" then Some(NoDelivery)
    else None
  }

  /** The `Literal["Submit through this page", "Request In-Person Setup"]` check. */
  function ParseSubmissionMethod(s: string): (r: Option<SubmissionMethod>)
    ensures forall m: SubmissionMethod :: r == Some(m) <==> SubmissionMethodName(m) == s
  {
    if s == "Submit through this page" then Some(SubmitOnline)
    else if s == "Request In-Person Setup" then Some(InPersonSetup)
    else None
  }

  /** A validated form. Optional text fields are `Option<string>`. */
  datatype OnboardingForm = OnboardingForm(
    businessName: string,
    instagramHandle: string,
    otherPlatforms: Option<string>,
    businessType: string,
    commonCustomerQuestion: string,
    deliveryPickup: DeliveryPickup,
    productServiceDescription: string,
    hasFaqs: bool,
    faqContent: Option<string>,
    plan: Plan,
    instagramEmail: Option<string>,
    instagramPassword: Option<string>,
    tiktokEmail: Option<string>,
    tiktokPassword: Option<string>,
    facebookEmail: Option<string>,
    facebookPassword: Option<string>,
    whatsappNumber: Option<string>,
    whatsappPassword: Option<string>,
    submissionMethod: SubmissionMethod,
    consentToShare: bool,
    contactEmail: string)

  /** The payload as received: the three restricted fields are still plain text. */
  datatype RawForm = RawForm(
    businessName: string,
    instagramHandle: string,
    otherPlatforms: Option<string>,
    businessType: string,
    commonCustomerQuestion: string,
    deliveryPickup: string,
    productServiceDescription: string,
    hasFaqs: bool,
    faqContent: Option<string>,
    plan: string,
    instagramEmail: Option<string>,
    instagramPassword: Option<string>,
    tiktokEmail: Option<string>,
    tiktokPassword: Option<string>,
    facebookEmail: Option<string>,
    facebookPassword: Option<string>,
    whatsappNumber: Option<string>,
    whatsappPassword: Option<string>,
    submissionMethod: string,
    consentToShare: bool,
    contactEmail: string)

  datatype FormError =
    | InvalidChoice(field: string, input: string)
    | Rejected(message: string)

  const ConsentMessage := "You must consent to share information to proceed"
  const FaqMessage := "FAQ content is required when FAQs are selected"

  /** Python truthiness of an optional string: set and non-empty. */
  predicate Given(v: Option<string>) {
    v.Some? && v.value != ""
  }

  /** The login fields that the model validator may require. */
  datatype LoginField =
    InstagramEmail | InstagramPassword | TiktokEmail | TiktokPassword | FacebookEmail | FacebookPassword

  function LoginValue(f: OnboardingForm, k: LoginField): Option<string> {
    match k
    case InstagramEmail => f.instagramEmail
    case InstagramPassword => f.instagramPassword
    case TiktokEmail => f.tiktokEmail
    case TiktokPassword => f.tiktokPassword
    case FacebookEmail => f.facebookEmail
    case FacebookPassword => f.facebookPassword
  }

  function MissingMessage(k: LoginField): string {
    match k
    case InstagramEmail => "Instagram email is required for online setup"
    case InstagramPassword => "Instagram password is required for online setup"
    case TiktokEmail => "TikTok email is required for Pro plan online setup"
    case TiktokPassword => "TikTok password is required for Pro plan online setup"
    case FacebookEmail => "Facebook email is required for Pro plan online setup"
    case FacebookPassword => "Facebook password is required for Pro plan online setup"
  }

  /** Declarative statement of which login fields are required, in the order they are checked. */
  function RequiredLogins(m: SubmissionMethod, p: Plan): (r: seq<LoginField>)
    ensures m == InPersonSetup ==> r == []
    ensures m == SubmitOnline ==> |r| >= 2 && r[0] == InstagramEmail && r[1] == InstagramPassword
    ensures m == SubmitOnline && p == Starter ==> |r| == 2
    ensures m == SubmitOnline && p == Pro ==>
      |r| == 6 && r[2] == TiktokEmail && r[3] == TiktokPassword && r[4] == FacebookEmail && r[5] == FacebookPassword
    ensures TiktokEmail in r <==> m.SubmitOnline? && p.Pro?
    ensures TiktokPassword in r <==> m.SubmitOnline? && p.Pro?
    ensures FacebookEmail in r <==> m.SubmitOnline? && p.Pro?
    ensures FacebookPassword in r <==> m.SubmitOnline? && p.Pro?
  {
    if m == InPersonSetup then []
    else if p == Pro then
      var r := [InstagramEmail, InstagramPassword, TiktokEmail, TiktokPassword, FacebookEmail, FacebookPassword];
      assert r[2] == TiktokEmail && r[3] == TiktokPassword && r[4] == FacebookEmail && r[5] == FacebookPassword;
      r
    else
      [InstagramEmail, InstagramPassword]
  }

  /** The position of the first field of `fields` that is not given, or `|fields|`. */
  function FirstMissing(f: OnboardingForm, fields: seq<LoginField>): (i: nat)
    ensures i <= |fields|
    ensures forall j :: 0 <= j < i ==> Given(LoginValue(f, fields[j]))
    ensures i < |fields| ==> !Given(LoginValue(f, fields[i]))
  {
    if fields == [] || !Given(LoginValue(f, fields[0])) then 0
    else 1 + FirstMissing(f, fields[1..])
  }

  /** `validate_conditional_fields`: the checks in source order, stopping at the
      first that fails. A failure carries the FAQ message or a login's message. */
  function CheckConditional(f: OnboardingForm): (r: Option<string>)
    ensures r.Some? ==> r.value == FaqMessage || exists k :: r.value == MissingMessage(k)
    ensures r.None? ==> !f.hasFaqs || Given(f.faqContent)
  {
    if f.hasFaqs && !Given(f.faqContent) then Some(FaqMessage)
    else if f.submissionMethod == SubmitOnline then
      if !Given(f.instagramEmail) then Some(MissingMessage(InstagramEmail))
      else if !Given(f.instagramPassword) then Some(MissingMessage(InstagramPassword))
      else if f.plan == Pro then
        if !Given(f.tiktokEmail) then Some(MissingMessage(TiktokEmail))
        else if !Given(f.tiktokPassword) then Some(MissingMessage(TiktokPassword))
        else if !Given(f.facebookEmail) then Some(MissingMessage(FacebookEmail))
        else if !Given(f.facebookPassword) then Some(MissingMessage(FacebookPassword))
        else None
      else None
    else None
  }

  /** The chain of checks reports the FAQ rule first, then the first required
      login field (in `RequiredLogins` order) that is missing, and nothing otherwise. */
  lemma CheckConditionalIsFirstViolation(f: OnboardingForm)
    ensures CheckConditional(f) ==
      if f.hasFaqs && !Given(f.faqContent) then Some(FaqMessage)
      else (
        var req := RequiredLogins(f.submissionMethod, f.plan);
        var i := FirstMissing(f, req);
        if i < |req| then Some(MissingMessage(req[i])) else None)
  {
    var req := RequiredLogins(f.submissionMethod, f.plan);
    if !(f.hasFaqs && !Given(f.faqContent)) && f.submissionMethod == SubmitOnline {
      var i := FirstMissing(f, req);
      if !Given(f.instagramEmail) {
        assert i == 0;
      } else if !Given(f.instagramPassword) {
        assert i == 1;
      } else if f.plan == Pro {
        assert Given(LoginValue(f, req[0])) && Given(LoginValue(f, req[1]));
        if !Given(f.tiktokEmail) {
          assert i == 2;
        } else if !Given(f.tiktokPassword) {
          assert Given(LoginValue(f, req[2])) && !Given(LoginValue(f, req[3]));
          assert i == 3;
        } else if !Given(f.facebookEmail) {
          assert Given(LoginValue(f, req[2])) && Given(LoginValue(f, req[3]));
          assert !Given(LoginValue(f, req[4]));
          assert i == 4;
        } else if !Given(f.facebookPassword) {
          assert i == 5;
        } else {
          assert i == 6;
        }
      } else {
        assert i == 2;
      }
    }
  }

  /** Field-level errors, in declaration order; pydantic reports all of them. */
  function FieldErrors(raw: RawForm): (r: seq<FormError>)
    ensures r == [] <==>
      ParseDeliveryPickup(raw.deliveryPickup).Some? && ParsePlan(raw.plan).Some? &&
      ParseSubmissionMethod(raw.submissionMethod).Some? && raw.consentToShare
    ensures !raw.consentToShare ==> Rejected(ConsentMessage) in r
  {
    (if ParseDeliveryPickup(raw.deliveryPickup).None? then [InvalidChoice("delivery_pickup", raw.deliveryPickup)] else [])
      + (if ParsePlan(raw.plan).None? then [InvalidChoice("plan", raw.plan)] else [])
      + (if ParseSubmissionMethod(raw.submissionMethod).None? then [InvalidChoice("submission_method", raw.submissionMethod)] else [])
      + (if !raw.consentToShare then [Rejected(ConsentMessage)] else [])
  }

  /** The typed form carrying the raw payload's values. */
  function ToForm(raw: RawForm): OnboardingForm
    requires FieldErrors(raw) == []
  {
    OnboardingForm(raw.businessName, raw.instagramHandle, raw.otherPlatforms, raw.businessType,
      raw.commonCustomerQuestion, ParseDeliveryPickup(raw.deliveryPickup).value,
      raw.productServiceDescription, raw.hasFaqs, raw.faqContent, ParsePlan(raw.plan).value,
      raw.instagramEmail, raw.instagramPassword, raw.tiktokEmail, raw.tiktokPassword,
      raw.facebookEmail, raw.facebookPassword, raw.whatsappNumber, raw.whatsappPassword,
      ParseSubmissionMethod(raw.submissionMethod).value, raw.consentToShare, raw.contactEmail)
  }

  /** Building `OnboardingForm` from a payload: field validators first (all
      their errors together), then the model validator, which returns the form
      unchanged or the first violated rule. */
  function Validate(raw: RawForm): (r: Result<OnboardingForm, seq<FormError>>)
    ensures r.Success? ==> r.value.consentToShare
    ensures r.Success? ==> (PlanName(r.value.plan) == raw.plan &&
      DeliveryPickupName(r.value.deliveryPickup) == raw.deliveryPickup &&
      SubmissionMethodName(r.value.submissionMethod) == raw.submissionMethod)
    ensures r.Success? ==> CheckConditional(r.value).None?
    ensures r.Failure? ==> r.error != []
    ensures r.Success? <==> FieldErrors(raw) == [] && CheckConditional(ToForm(raw)).None?
    ensures FieldErrors(raw) != [] ==> r == Failure(FieldErrors(raw))
    ensures FieldErrors(raw) == [] && CheckConditional(ToForm(raw)).Some? ==>
      r == Failure([Rejected(CheckConditional(ToForm(raw)).value)])
  {
    var errs := FieldErrors(raw);
    if errs != [] then Failure(errs)
    else
      var f := ToForm(raw);
      match CheckConditional(f)
      case Some(msg) => Failure([Rejected(msg)])
      case None => Success(f)
  }

  /** Without consent the form is always rejected, with the consent message. */
  lemma ConsentRequired(raw: RawForm)
    requires !raw.consentToShare
    ensures Validate(raw).Failure? && Rejected(ConsentMessage) in Validate(raw).error
  {
  }

  /** FAQs selected without content always fail, with the FAQ message once
      the field-level checks have passed. */
  lemma FaqRequired(raw: RawForm)
    requires raw.hasFaqs && !Given(raw.faqContent)
    ensures Validate(raw).Failure?
    ensures FieldErrors(raw) == [] ==> Validate(raw).error == [Rejected(FaqMessage)]
  {
  }

  /** An accepted form is the payload itself, field for field. */
  lemma ValidateKeepsValues(raw: RawForm)
    requires Validate(raw).Success?
    ensures Validate(raw).value == ToForm(raw)
    ensures Validate(raw).value.instagramPassword == raw.instagramPassword
    ensures Validate(raw).value.whatsappNumber == raw.whatsappNumber
  {
  }

  /** Once the field checks pass, a payload is accepted, as itself, exactly when
      the FAQ rule holds and every login its method and plan require is given. */
  lemma ValidateAcceptsIff(raw: RawForm)
    requires FieldErrors(raw) == []
    ensures Validate(raw) == Success(ToForm(raw)) <==>
      (!raw.hasFaqs || Given(raw.faqContent)) &&
      forall k :: k in RequiredLogins(ToForm(raw).submissionMethod, ToForm(raw).plan) ==> Given(LoginValue(ToForm(raw), k))
  {
    var f := ToForm(raw);
    var req := RequiredLogins(f.submissionMethod, f.plan);
    CheckConditionalIsFirstViolation(f);
    assert forall j :: 0 <= j < |req| ==> req[j] in req;
  }

  /** For in-person setup no login field is ever required, whatever the plan. */
  lemma InPersonRequiresNoLogins(f: OnboardingForm)
    requires f.submissionMethod == InPersonSetup
    ensures CheckConditional(f) == if f.hasFaqs && !Given(f.faqContent) then Some(FaqMessage) else None
  {
  }

  /** For online setup both Instagram fields are required on either plan. */
  lemma OnlineRequiresInstagram(f: OnboardingForm)
    requires f.submissionMethod == SubmitOnline && !(f.hasFaqs && !Given(f.faqContent))
    ensures !Given(f.instagramEmail) ==> CheckConditional(f) == Some(MissingMessage(InstagramEmail))
    ensures Given(f.instagramEmail) && !Given(f.instagramPassword) ==>
      CheckConditional(f) == Some(MissingMessage(InstagramPassword))
  {
  }

  /** For online Pro setup the TikTok and Facebook pairs are required too, in that order. */
  lemma ProRequiresTiktokAndFacebook(f: OnboardingForm, k: LoginField)
    requires f.submissionMethod == SubmitOnline && f.plan == Pro && !(f.hasFaqs && !Given(f.faqContent))
    requires Given(f.instagramEmail) && Given(f.instagramPassword)
    requires k in [TiktokEmail, TiktokPassword, FacebookEmail, FacebookPassword]
    requires !Given(LoginValue(f, k))
    ensures CheckConditional(f).Some?
    ensures CheckConditional(f) != None && CheckConditional(f) != Some(FaqMessage)
  {
  }

  /** A Starter form never fails because of its TikTok or Facebook fields:
      changing them does not change the outcome. */
  lemma StarterIgnoresProLogins(f: OnboardingForm, te: Option<string>, tp: Option<string>,
                                fe: Option<string>, fp: Option<string>)
    requires f.plan == Starter
    ensures CheckConditional(f) ==
      CheckConditional(f.(tiktokEmail := te, tiktokPassword := tp, facebookEmail := fe, facebookPassword := fp))
  {
  }

  /** WhatsApp fields are never required, on any plan or method. */
  lemma WhatsappNeverRequired(f: OnboardingForm, wn: Option<string>, wp: Option<string>)
    ensures CheckConditional(f) == CheckConditional(f.(whatsappNumber := wn, whatsappPassword := wp))
  {
  }
}
