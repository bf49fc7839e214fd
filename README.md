# AIChatFlows onboarding and chat logic in Dafny

This project models the deterministic logic of the AIChatFlows site:

- the onboarding form that small businesses fill in;
- its checks in the browser and on the server;
- how its contents are turned into mails for the site's staff and the customer;
- the two keyword-driven chat responders.

The modules follow the source files:

| module | file | what it holds |
|---|---|---|
| `Outcomes` | — | `Option` and `Result` |
| `Text` | — | ASCII case mapping, JavaScript white space and `trim`, substring search, Python `replace`/`title`/`split('/')[-1]` |
| `Models` | app/models.py | the `OnboardingForm` record, its three fixed-choice fields, the consent check and the conditional-field validator |
| `SecureForm` | static/js/secure-form.js | `sanitizeInput`, `validateEmail`, `validateRequired`; the submit handler's collection loop and required-field loop; the section-visibility rules of the form page (a class); the plan taken from the URL; the file filter loop |
| `EmailService` | app/email_service.py | the admin notification's helpers, sections and password redaction; credential extraction, labelling and text for the credential mail; the SMTP guard |
| `DemoChat` | app/main.py | `demo_chat`'s prioritised keyword classifier |
| `ChatWidget` | static/js/main.js | `generateContextualResponse` (a loop over an ordered table) and the widget's state (a class) |

Mail bodies are ordered lists of labelled lines (`EmailService.Line`), not HTML. The HTML and plain-text bodies carry the same lines. The plain-text line is given by `LineText`.

Canned reply texts are named by an enumeration (`DemoChat.Reply`, `ChatWidget.Answer`), and `ReplyText`/`AnswerText` give the words. Two table entries with the same text, "price" and "cost", therefore name the same answer.

## Model

| member | source | states |
|---|---|---|
| Models.ParsePlan | app/models.py:23 | a plan is accepted exactly when it is spelled "Starter" or "Pro", and maps back to that spelling |
| Models.ParseDeliveryPickup | app/models.py:17 | accepted exactly for "Delivery", "Pickup", "Both", "None" |
| Models.ParseSubmissionMethod | app/models.py:38 | accepted exactly for "Submit through this page" and "Request In-Person Setup" |
| Models.RequiredLogins | app/models.py:68-84 | in-person setup requires no login; online setup requires Instagram email then password, and nothing more on Starter; online Pro then requires TikTok email, TikTok password, Facebook email, Facebook password in that order; each TikTok and Facebook field is required exactly for online Pro |
| Models.FirstMissing | app/models.py:70-84 | the position returned is the first login field not given; all before it are given |
| Models.CheckConditional | app/models.py:61-86 | a failure carries the FAQ message or a login field's message; no failure means the FAQ rule holds |
| Models.CheckConditionalIsFirstViolation | app/models.py:62-86 | the validator reports the FAQ rule first, then the first missing required login in the order Instagram email, Instagram password, TikTok email, TikTok password, Facebook email, Facebook password, and nothing otherwise |
| Models.FieldErrors | app/models.py:17-59 | field-level errors are empty exactly when the three choices parse and consent is given; without consent the consent error is among them |
| Models.Validate | app/models.py:54-86 | a payload is accepted exactly when its field checks pass and no conditional rule is violated; failing field checks give all their errors; otherwise a violated rule gives exactly its one message; an accepted form has consent and the same choice spellings |
| Models.ValidateAcceptsIff | app/models.py:61-86 | once the field checks pass, the payload is accepted as itself exactly when the FAQ rule holds and every login its method and plan require is given |
| Models.ConsentRequired | app/models.py:54-59 | a form without consent is always rejected with "You must consent to share information to proceed" |
| Models.FaqRequired | app/models.py:64-65 | FAQs selected without content always fail, with the FAQ message when the fields themselves are valid |
| Models.ValidateKeepsValues | app/models.py:86 | an accepted form is returned unchanged, field for field |
| Models.InPersonRequiresNoLogins | app/models.py:68 | for in-person setup only the FAQ rule can fail, whatever the plan |
| Models.OnlineRequiresInstagram | app/models.py:68-73 | online setup fails on a missing Instagram email, then on a missing Instagram password |
| Models.ProRequiresTiktokAndFacebook | app/models.py:76-84 | online Pro setup fails when any TikTok or Facebook field is missing |
| Models.StarterIgnoresProLogins | app/models.py:76 | on the Starter plan, changing the TikTok or Facebook fields never changes the outcome |
| Models.WhatsappNeverRequired | app/models.py:62-86 | changing the WhatsApp fields never changes the outcome |
| SecureForm.StripAngles | static/js/secure-form.js:36 | the result holds exactly the input's characters other than `<` and `>` |
| SecureForm.RemoveKeyword | static/js/secure-form.js:37-38 | one left-to-right pass; the result is no longer than the input and uses only its characters (what it removes: `RemoveKeywordDrops`) |
| SecureForm.RemoveKeywordDrops | static/js/secure-form.js:37-38 | for any input, the first occurrence of the keyword in any letter case is removed, the text before it is kept, and the pass resumes right after it |
| SecureForm.HandlerMatch | static/js/secure-form.js:39 | a nonzero length starts with "on" (any case), ends with `=` and is at least four long |
| SecureForm.HandlerMatchExact | static/js/secure-form.js:39 | the length found spells `on\w+\s*=` (`HandlerPattern`), and any length that spells it is the one found, so 0 means no match |
| SecureForm.RemoveHandlers | static/js/secure-form.js:39 | no longer than the input, only its characters (what it removes: `RemoveHandlersDrops`) |
| SecureForm.RemoveHandlersKeepsPrefix | static/js/secure-form.js:39 | text in which no handler match starts is kept as it is |
| SecureForm.RemoveHandlersDrops | static/js/secure-form.js:39 | for any input, the first text spelling `on\w+\s*=` is removed, the text before it is kept, and the pass resumes right after it |
| SecureForm.SanitizeText | static/js/secure-form.js:35-40 | the result holds no `<` or `>`, has no white space at either end, is never longer than the input and uses only its characters |
| SecureForm.Sanitize | static/js/secure-form.js:32-41 | non-strings are returned unchanged; strings are sanitised |
| SecureForm.StripAnglesAppend | static/js/secure-form.js:36 | stripping distributes over concatenation |
| SecureForm.RemoveKeywordKeepsPrefix | static/js/secure-form.js:37-38 | a prefix containing no match is kept as it is |
| SecureForm.SanitizeNotIdempotent | static/js/secure-form.js:35-40 | for every cut of `javascript:` into two non-empty pieces placed around it (such as `javajavascript:script:`), sanitising gives `javascript:`, and sanitising that again gives the empty string |
| SecureForm.SanitizeRejoined | static/js/secure-form.js:35-40 | wherever `javascript:` is cut strictly inside, the two pieces placed around the keyword sanitise to the keyword itself: its removal rejoins them |
| SecureForm.SanitizeKeywordAlone | static/js/secure-form.js:37 | the keyword alone sanitises to the empty string |
| SecureForm.TagStripped | static/js/secure-form.js:36 | a tag pair loses only its brackets |
| SecureForm.SanitizeTag | static/js/secure-form.js:35-40 | a tag pair whose name and body hold no angle brackets and no `j`, `v` or `o` (such as `<script>alert(1)</script>`) keeps only its words: `scriptalert(1)/script` |
| SecureForm.ValidateEmail | static/js/secure-form.js:44-47 | true exactly when the text splits as local part, `@`, domain, `.`, and two or more letters over the pattern's character classes; the `@` of an accepted address is its only one |
| SecureForm.ValidateRequired | static/js/secure-form.js:49-51 | false exactly for null, undefined and text that is empty after trimming |
| SecureForm.CollectedLastWins | static/js/secure-form.js:222-229 | each key other than `delivery_services` holds the sanitised value of its last entry, and only keys that occur are present |
| SecureForm.ServiceIndices | static/js/secure-form.js:222-225 | exactly the positions of the `delivery_services` entries, in increasing order |
| SecureForm.ServicesInOrder | static/js/secure-form.js:223-225 | the collected services are those entries one for one: the k-th is the k-th such entry, sanitised, and there are as many as there are such entries |
| SecureForm.ServicesPresent | static/js/secure-form.js:223-225 | a services list is set exactly when some entry has the `delivery_services` key |
| SecureForm.CollectFormData | static/js/secure-form.js:218-234 | the loop builds the collected object, with the services joined by ", " |
| SecureForm.WithConsentFlags | static/js/secure-form.js:237-239 | the three consent flags are set, each true only for a checked box, and every other key is kept |
| SecureForm.FirstFailing | static/js/secure-form.js:242-249 | the first field, in order, that fails `validateRequired`, with all before it passing; none exactly when all pass |
| SecureForm.FirstMissingRequired | static/js/secure-form.js:242-249 | the loop with early exit finds `FirstFailing` |
| SecureForm.ReplaceFirst | static/js/secure-form.js:245 | `field.replace('_', ' ')`: only the first `_` becomes a space, every other character is kept |
| SecureForm.SubmitForm | static/js/secure-form.js:54-59 | the object sent keeps every key and passes every value through the sanitiser once more (`SubmitPayload`) |
| SecureForm.SubmitPayloadKeepsFlags | static/js/secure-form.js:54-59 | the three consent booleans reach the server as the checkboxes set them |
| SecureForm.CheckedThenSentEmpty | static/js/secure-form.js:54-59 | since the checked object is sanitised again, a field collected as `javascript:` (from any cut of it placed around the keyword, such as `javajavascript:script:`) passes the required check and is sent as the empty string |
| SecureForm.HandleSubmit | static/js/secure-form.js:218-258 | the data is sent exactly when all four required fields pass and then the email passes, and what is sent is the checked object sanitised again by `submitForm`; the first failing field `f` gives the error `f` (first `_` made a space) + " is required."; the email error is shown exactly when the fields pass and the email does not |
| SecureForm.PlanFromUrl | static/js/secure-form.js:191-194 | `starter` gives Starter, `pro` gives Pro, anything else no plan |
| SecureForm.FormPage.UpdateConditionalFields | static/js/secure-form.js:134-150 | delivery services shown exactly for Delivery or Both, pickup options exactly for Pickup or Both |
| SecureForm.FormPage.UpdateLoginFields | static/js/secure-form.js:152-175 | login section shown exactly when a plan is chosen and the method is "Submit through this page"; the Pro section additionally needs Pro; the sendsecure.ly message exactly for that method; never both |
| SecureForm.FormPage.SelectPlanFromUrl | static/js/secure-form.js:190-202 | a recognised parameter selects the plan and refreshes all three login sections (login, Pro login, sendsecure.ly message) from the selected method; any other leaves the page unchanged |
| SecureForm.AcceptedNamesExact | static/js/secure-form.js:103-111 | a name is listed exactly when some selected file of that name is of an allowed type and at most 5 MB |
| SecureForm.OnFilesChanged | static/js/secure-form.js:99-125 | no files: "No file selected"; some accepted: their names joined; none accepted: the error, and the input is cleared |
| EmailService.GetValue | app/email_service.py:184-188 | the default for a missing value, `None`, `""` or `"null"`; otherwise the value unchanged |
| EmailService.FormatBoolean | app/email_service.py:178-181 | True/False become "Yes"/"No"; other values pass through |
| EmailService.IsImageFile | app/email_service.py:191-195 | false for an empty URL; otherwise true exactly when the lower-cased URL ends with one of the five extensions |
| EmailService.FilenameFromUrl | app/email_service.py:198-201 | "File" for an empty URL; otherwise the text after the last `/`, which holds no `/` |
| EmailService.FilenameAfterSlash | app/email_service.py:201 | the file name of `dir/name` is `name` |
| EmailService.FileDetailNotProvidedIff | app/email_service.py:234-242 | a file line says "Not provided" exactly when the URL is empty |
| EmailService.FormatTimestamp | app/email_service.py:163-175 | "N/A" for an empty timestamp; the formatted value when it contains `T` and parses; the value as it is otherwise |
| EmailService.FileDetail | app/email_service.py:234-242 | "Not provided" for an empty URL; otherwise the file name, " (Image)" for an image, " - " and the URL |
| EmailService.CreateFileText | app/email_service.py:234-242 | "• label: Not provided" for an empty URL; otherwise a line ending with " - " and the URL |
| EmailService.ShowsSummary | app/email_service.py:386-390 | the summary shows exactly the business name, plan, contact email and submission time |
| EmailService.ShowsBusiness | app/email_service.py:394-407 | the business section shows its six fields, plus the specified type exactly when it is shown |
| EmailService.ShowsDelivery | app/email_service.py:409-428 | the delivery section shows the choice, and each delivery or pickup field exactly when its choice applies and the field is set |
| EmailService.ShowsMenu | app/email_service.py:431-440 | the menu section shows its four fields, plus the FAQ document exactly when the form has FAQs |
| EmailService.ShowsSetup | app/email_service.py:443-458 | the setup section shows plan, method and handling, the Instagram login exactly for online submission, the Facebook login exactly for online Pro |
| EmailService.ShowsLegal | app/email_service.py:461-465 | the legal section shows exactly the three consent flags |
| EmailService.ComposeBusinessSection | app/email_service.py:394-407 | the appends build the business section |
| EmailService.ComposeDeliverySection | app/email_service.py:409-428 | the appends build the delivery section |
| EmailService.ComposeMenuSection | app/email_service.py:431-440 | the appends build the menu section |
| EmailService.ComposeSetupSection | app/email_service.py:443-458 | the appends build the setup section |
| EmailService.ShowsAdmin | app/email_service.py:383-466 | a field shows in the notification exactly when it shows in one of its sections |
| EmailService.AdminLines | app/email_service.py:383-466 | the six sections in order; what it shows is stated by `ShowsAdmin` and the section lemmas, what it hides by `PasswordsRedacted` and `UnreadFieldsIgnored` |
| EmailService.InstagramLinesShownIff | app/email_service.py:450-453 | the Instagram login lines appear exactly for "Submit through this page" |
| EmailService.FacebookLinesShownIff | app/email_service.py:450-458 | the Facebook login lines appear exactly for that method on the Pro plan |
| EmailService.DeliveryLinesShownIff | app/email_service.py:413-419 | a delivery line appears exactly for Delivery or Both with its field set |
| EmailService.PickupLinesShownIff | app/email_service.py:422-428 | a pickup line appears exactly for Pickup or Both with its field set |
| EmailService.SpecifiedTypeShownIff | app/email_service.py:400-403 | "Specified Business Type" appears exactly for type "Other" with the other type set |
| EmailService.FaqDocumentShownIff | app/email_service.py:438-440 | the FAQ document line appears exactly when the form has FAQs |
| EmailService.AdminLinesPrintable | app/email_service.py:433-440 | with file fields holding text or nothing, every line can be printed |
| EmailService.PasswordsRedacted | app/email_service.py:453-458 | a password line shows only "Provided" or "Not provided" |
| EmailService.AdminLinesReadOnlyDisplayed | app/email_service.py:383-466 | two forms that agree on the displayed fields and on whether each password is set give the same notification |
| EmailService.PasswordValueNeverShown | app/email_service.py:453-458 | replacing a password by any other value that is equally set or unset leaves the notification unchanged |
| EmailService.UnreadFieldsIgnored | app/email_service.py:383-466 | a field the notification does not display, such as the TikTok login, never changes it |
| EmailService.ComposeAdminText | app/email_service.py:383-466 | the body grown by conditional appends is the section-by-section line list |
| EmailService.Credentials | app/email_service.py:475-484 | at most one entry per listed field (contents: `CredentialsExactly`) |
| EmailService.CredentialsExactly | app/email_service.py:475-484 | a field is extracted exactly when it is one of the five credential fields and truthy, with the form's value |
| EmailService.CredentialsReadOnlyFields | app/email_service.py:482-484 | the bundle depends only on the listed fields |
| EmailService.TiktokNeverSent | app/email_service.py:475-484 | TikTok and WhatsApp fields never change the credential bundle |
| EmailService.ExtractCredentials | app/email_service.py:475-484 | the loop builds the filtered bundle in field order |
| EmailService.CredentialsEmptyIff | app/email_service.py:486-487 | nothing is extracted exactly when none of the five fields is truthy |
| EmailService.NameLabel | app/email_service.py:575-581 | the label of a field name (values: `UsernameLabel`, `PasswordLabel`, `CredentialLabels`) |
| EmailService.CredentialLabel | app/email_service.py:576-581 | the label of a field's name (values: `CredentialLabels`) |
| EmailService.UsernameLabel | app/email_service.py:524-530 | a `<platform>_email` field is labelled "<Platform> Username" |
| EmailService.PasswordLabel | app/email_service.py:524-530 | a `<platform>_password` field is labelled "<Platform> Password" |
| EmailService.CredentialLabels | app/email_service.py:524-530 | the five labels: Instagram Username, Instagram Password, Facebook Username, Facebook Password, Other Platforms Credentials |
| EmailService.ComposeCredentialText | app/email_service.py:575-582 | the loop appends one entry per credential, in order |
| EmailService.CredentialTextHasEntries | app/email_service.py:575-582 | every extracted credential's label and value are in the text |
| EmailService.CredentialTextNoNewline | app/email_service.py:582 | the entries are prefixed by backslash and `n`, so the text holds no line break unless a value does |
| EmailService.SendSecureCredentials | app/email_service.py:470-593 | with nothing to send the answer is True and no mail is composed; otherwise the credential text is composed and the answer is `send_email`'s |
| EmailService.SendEmail | app/email_service.py:43-45 | an unset username or password gives False without sending; otherwise the transport's outcome |
| EmailService.SendAdminNotification | app/email_service.py:154-468 | the body is the notification's line list and the answer is `send_email`'s |
| DemoChat.Classify | app/main.py:75-91 | the fallback carries the original message |
| DemoChat.FirstTopicIsFirst | app/main.py:80-89 | in a priority list the first match is the topic mentioned with no earlier topic mentioned |
| DemoChat.FirstTopicNone | app/main.py:88-89 | there is no match exactly when no topic is mentioned |
| DemoChat.ClassifyIsFirstMatch | app/main.py:78-89 | the `if`/`elif` chain is the first-match rule over price, feature, demo, greeting on the lower-cased message |
| DemoChat.ClassifyCannedIff | app/main.py:80-87 | a topic's reply is given exactly when it is mentioned and no earlier topic is |
| DemoChat.ClassifyFallbackIff | app/main.py:88-89 | the fallback is given exactly when no topic is mentioned |
| DemoChat.PriceFirst | app/main.py:80 | any price word selects the price reply, so "how much" with "what" gets it |
| DemoChat.ClassifyIgnoresCase | app/main.py:78 | messages equal up to ASCII case get the same canned reply |
| DemoChat.ThinkIsGreeting | app/main.py:86 | "think" holds "hi" and is taken for a greeting |
| DemoChat.FallbackQuotesMessage | app/main.py:89 | the fallback text contains the original, un-lowered message |
| DemoChat.ReplyText | app/main.py:80-89 | one fixed text per topic; the fallback text contains the message it quotes |
| ChatWidget.FirstMatch | static/js/main.js:148-152 | a match comes from an entry whose keyword occurs in the text |
| ChatWidget.FirstMatchAt | static/js/main.js:148-152 | the entry whose keyword occurs first in table order, with none before it, gives the reply |
| ChatWidget.FirstMatchNone | static/js/main.js:148-155 | there is no match exactly when no keyword occurs |
| ChatWidget.GenerateContextualResponse | static/js/main.js:127-163 | the loop returns the first matching entry's reply, or one of the four defaults when none matches |
| ChatWidget.PriceWins | static/js/main.js:131-152 | a message with "price" gets the pricing reply, "plan" or not |
| ChatWidget.CostAsPrice | static/js/main.js:132-133 | a message with "cost" gets the same pricing reply |
| ChatWidget.AnswerText | static/js/main.js:131-160 | the words of each table entry and of the four defaults; "price" and "cost" share one |
| ChatWidget.Widget.constructor | static/js/main.js:22-35 | not minimised, not in demo mode, welcome message shown |
| ChatWidget.Widget.ToggleMinimize | static/js/main.js:64-66 | flips `isMinimized` and nothing else |
| ChatWidget.Widget.ToggleDemoMode | static/js/main.js:79-88 | flips `isDemoMode` and posts a notice of the new mode |
| ChatWidget.Widget.ToggleTwice | static/js/main.js:65-80 | two clicks on either button restore both flags |
| ChatWidget.Widget.Submit | static/js/main.js:38-59 | a message empty after trimming is ignored; otherwise the trimmed message and then one reply are added: a demo reply in demo mode, else the contextual one |

## Left out

- SMTP transport, TLS, login and logging (app/email_service.py:50-75) are I/O. `send_email`'s outcome after its guard is the parameter `delivered`.
- The OpenAI and Vertex AI endpoints (app/main.py:52-73), run.py and the test scripts are thin calls to remote services.
- DOM updates, event wiring, `fetch`, `setTimeout` delays and redirects, and the key and context-menu blocking are UI concerns. The visibility rules are modelled as the booleans they set.
- SecureForm.HandleSubmit: the `submitButton.disabled` guard (secure-form.js:208) is not modelled. The source ignores a second submit while one is pending, and re-enables the button on error. The model treats each submit on its own.
- Random choices are modelled as "some element of the list" (`:|`), never a particular one. This covers the demo replies (static/js/main.js:55) and the default replies (static/js/main.js:162).
- `datetime.now()` defaulting (app/models.py:49-52) is a clock read.
- ISO timestamp parsing is library date handling. `FormatTimestamp` takes the parser's outcome as a parameter.
- Pydantic's `EmailStr` (app/models.py:26, 44) is library behaviour that cannot be seen here. Emails are plain text in `Models`.
- The HTML and CSS around the mail lines are not modelled, nor the image-preview markup of `create_file_display`. The line list stands for both bodies.
- Case mapping is ASCII only: Python's `lower()`/`title()` and JavaScript's `toLowerCase()` also map non-ASCII letters.
- Models.CheckConditional: the `if self.plan` guards (app/models.py:70, 72) are always true for a validated plan, so they are not modelled.
- The user confirmation and payment mails are fixed templates with no logic. So is the greeting part of the credential mail: its business name and plan lines are left out.
- EmailService.AdminLinesPrintable, EmailService.MenuPrintable, EmailService.SendAdminNotification require file fields that are text or unset (`FileValuesUsable`). Given `True`, `create_file_text` raises in Python, and no `try` around it catches this, so the exception propagates out of `send_admin_notification`. The model does not cover that raising path. The other lemmas hold for any form.
- The TikTok login is required for Pro (app/models.py:77-80) but is neither extracted for the credential mail nor shown in the notification. The model states this (`TiktokNeverSent`, `UnreadFieldsIgnored`).
- The sanitiser's keyword removal is a single left-to-right pass, so it is not idempotent: removing a keyword can join its neighbours into a new one (`SanitizeNotIdempotent`).
- The model validator stops at the first violated rule, so a rejected form reports one conditional error at a time (`CheckConditionalIsFirstViolation`).
- ChatWidget.Widget.Submit: the reply is added at once, with demo mode read at submit time. In main.js:52-60 the reply comes from a `setTimeout` 1 to 2 seconds later, and demo mode is read only then. So a demo toggle made in between changes which kind of reply is given. A second message sent in between lands before the first reply, and replies with random delays can arrive out of order. The model does not capture this interleaving.
- Models.FieldErrors: `RawForm` gives every required field a value of the right type. A payload that omits a required field or sends a wrong type is rejected by pydantic with "Field required" or a type error, and those errors are not modelled.
- EmailService.Credentials: its own ensures is a length bound; what it computes is stated by `CredentialsExactly`.
- EmailService.AdminLines, EmailService.NameLabel, EmailService.CredentialLabel, ChatWidget.AnswerText: no contract of their own, which keeps the lemmas that evaluate them on fixed names cheap; their content is stated by the lemmas named in their rows.
