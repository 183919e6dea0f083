# Acad Scribe Pro — a Dafny model of its core

Acad Scribe Pro is a Vietnamese academic-writing web application. Its core is modelled here:

- **Subscriptions and plans**:
  - the four tiers (free, student, premium, institutional) and the two billing cycles;
  - the subscription hook: fetching, or creating, the user's subscription; the usage map;
    per-feature limits; remaining usage; the feature-limit check;
  - the subscription status card, with its plan limit table and usage bars;
  - the two payment screens (the plan selector and the checkout page) and the pricing grid.
- **Outlines**:
  - the outline tree;
  - the editable outline, with every edit operation and the textarea line parsing;
  - the outline generator page and its Markdown export;
  - the export dialog: Markdown, HTML, LaTeX, JSON, CSV, XML and structured text, the format
    table, the file name sanitiser, and the choice of format.
- **AI tools pages**:
  - the document summarizer: its guard, its Markdown export and its file name;
  - the plagiarism checker: its guard, its similarity bands and badges, and the word count;
  - the writing assistant: its guard, how the reply is kept, and the readability band;
  - the collaboration tools: projects, invitations, comments, and merging comments with
    profiles.
- **Edge functions**:
  - `generate-full-article`: the outline text sent to the model, the token budget, the
    defaults, and the error statuses;
  - `document-summarizer`: the length instruction, what is stored, and when a row is written.

Each source file is one module. State that the source changes in place becomes a `class` whose methods
say what they change:

- the React pages: `useState` fields become class fields;
- the generated-documents writers: their `+=` loops become `while` loops proved equal to
  recursive specification functions.

Pure lookups and transformations are functions with contracts and lemmas.

Two shared modules sit underneath:

- `Common`: `Option`, and `Outcome`, the result of a backend call (`Succeeded(data)` or
  `Failed`). It also has the last-wins map fill used where an array is folded into an object.
- `Text`: the JavaScript semantics the core relies on:
  - `\s` whitespace and `trim()`;
  - `split` on a character, and `split(/re+/)` on maximal runs;
  - the `split(/\s+/).filter(w => w.length > 0)` word count;
  - decimal formatting of indices;
  - substring occurrence.

Backend calls (Supabase queries, RPCs, edge-function invocations, the model API) are not
executed. Each one is a parameter of the method that makes it: its outcome for a backend
call, or the configured key for an environment variable.

## Model

| member | source | states |
|---|---|---|
| Plans.ParseTier | src/integrations/supabase/types.ts:554 | a string parses to a tier exactly when it is that tier's database id; no other string parses |
| Plans.ParseTierId | src/integrations/supabase/types.ts:685 | parsing a tier's id gives back that tier (round trip) |
| Plans.TierIdInjective | src/integrations/supabase/types.ts:685 | distinct tiers have distinct ids |
| Plans.ParseCycle | src/integrations/supabase/types.ts:551 | a string parses to a billing cycle exactly when it is "monthly" or "yearly" |
| Plans.ParseCycleId | src/integrations/supabase/types.ts:682 | parsing a cycle's id gives back that cycle |
| Plans.PriceFor | src/components/pricing/PricingPlans.tsx:181 | the monthly price on the monthly cycle, the yearly price on the yearly one |
| SubscriptionHook.ParseFeature | src/hooks/useSubscription.ts:127-160 | a feature key parses exactly when it names one of the six limited features |
| SubscriptionHook.GetFeatureLimit | src/hooks/useSubscription.ts:124-163 | 0 without a subscription, for an unknown tier or for an unknown feature; otherwise the table's limit for that tier and feature |
| SubscriptionHook.HasFeatureAccess | src/hooks/useSubscription.ts:165-167 | access only for a subscription whose tier and feature key are known, and then exactly where the table's limit is positive |
| SubscriptionHook.FeatureKeyInjective | src/hooks/useSubscription.ts:127-160 | the six feature keys are pairwise distinct, so the lookup is unambiguous |
| SubscriptionHook.TierIdsInjective | src/hooks/useSubscription.ts:127-160 | the table's four tier keys are pairwise distinct |
| SubscriptionHook.GetRemainingUsage | src/hooks/useSubscription.ts:169-173 | the limit minus the usage, clamped at 0; a feature with no usage entry has its whole limit left |
| SubscriptionHook.RemainingAntitone | src/hooks/useSubscription.ts:169-173 | more usage never leaves more remaining |
| SubscriptionHook.FreeTierAccess | src/hooks/useSubscription.ts:128-135 | a free subscription has no access to the summarizer, citations or plagiarism check, and has access to outlines, projects and grammar check |
| SubscriptionHook.LimitsMonotone | src/hooks/useSubscription.ts:127-160 | every feature's limit grows from free to student to premium, and premium equals institutional |
| SubscriptionHook.PremiumRemaining | src/hooks/useSubscription.ts:144-151 | on premium, the remaining usage is 999999 minus the usage, clamped at 0 |
| SubscriptionHook.UsagePairs | src/hooks/useSubscription.ts:80-84 | one (feature type, count) pair per usage row, in row order |
| SubscriptionHook.UsageMapKeys | src/hooks/useSubscription.ts:80-84 | the usage map has a key exactly when some row carries that feature type |
| SubscriptionHook.UsageMapLastRow | src/hooks/useSubscription.ts:80-84 | a feature's count is that of the last row carrying it |
| SubscriptionHook.CheckFeatureLimit | src/hooks/useSubscription.ts:90-106 | true exactly when there is a user and a subscription and the RPC succeeded with true |
| SubscriptionHook.SubscriptionState.constructor | src/hooks/useSubscription.ts:23-25 | starts with no subscription, an empty usage map, and loading |
| SubscriptionHook.SubscriptionState.FetchSubscription | src/hooks/useSubscription.ts:27-66 | no user: no subscription; a found row is kept; no row: a row with the user's id and email, tier "free" and active is inserted, and the row the insert returns is kept; a failed query or insert keeps the previous value; loading ends; usage untouched |
| SubscriptionHook.SubscriptionState.FetchUsage | src/hooks/useSubscription.ts:68-88 | without a user or on a failed query the map is unchanged; no rows gives the empty map; otherwise the last-wins map of the rows |
| SubscriptionStatus.PlanLimitShape | src/components/SubscriptionStatus.tsx:23-68 | every limit of the card's table is a count (0 or more) or the unlimited marker -1 |
| SubscriptionStatus.PlanLimitMonotone | src/components/SubscriptionStatus.tsx:23-68 | for each feature, each tier allows at least what the tier below it allows (unlimited counts as the most) |
| SubscriptionStatus.TopTiersUnlimited | src/components/SubscriptionStatus.tsx:46-67 | institutional is unlimited everywhere; premium is unlimited for everything except plagiarism checks, where it allows 10 |
| SubscriptionStatus.FloorDiv | src/components/SubscriptionStatus.tsx:102-105 | the quotient rounded toward minus infinity, used to give the percentage its integer value |
| SubscriptionStatus.UsagePercent | src/components/SubscriptionStatus.tsx:102-105 | 0 when unlimited; at most 100; exactly 100 once usage reaches the limit; below the limit, the floor of used*100/limit |
| SubscriptionStatus.OverLimitFullBar | src/components/SubscriptionStatus.tsx:240-241 | an unlimited feature is never over its limit, and an over-limit feature shows a full bar |
| SubscriptionStatus.IsOverLimit | src/components/SubscriptionStatus.tsx:241 | never over for an unlimited feature, otherwise over exactly when usage exceeds the limit, and then the bar is full |
| SubscriptionStatus.PlanLimitsFor | src/components/SubscriptionStatus.tsx:100 | a limit table exists exactly when the plan id names a tier, and it is that tier's table |
| SubscriptionStatus.FeatureRows | src/components/SubscriptionStatus.tsx:107-117 | no rows without a known plan; otherwise nine rows in table order, each with its key, label, usage (0 when absent) and the plan's limit |
| SubscriptionStatus.MissingUsageIsZero | src/components/SubscriptionStatus.tsx:107-117 | a feature with no usage entry is shown as used 0 times |
| SubscriptionStatus.StatusBadge | src/components/SubscriptionStatus.tsx:119-128 | "active" and only it shows the secondary "active" badge, "expired" and only it the destructive "expired" one, all else the outline "inactive" badge |
| PaymentMethods.FindPlan | src/components/PaymentMethods.tsx:267 | the plan with that id from the pricing table, or none when no plan has it |
| PaymentMethods.PlanIdsAreTiers | src/components/PaymentMethods.tsx:101-229 | the pricing table lists the four tiers, in tier order, by their ids |
| PaymentMethods.GetCurrentPrice | src/components/PaymentMethods.tsx:255-257 | the monthly price for the monthly cycle, the yearly price for the yearly one |
| PaymentMethods.RoundDiv | src/components/PaymentMethods.tsx:259-263 | n/d rounded half up, as `Math.round` does |
| PaymentMethods.GetDiscountPercent | src/components/PaymentMethods.tsx:259-263 | 0 for a free plan; otherwise the saving of a year over twelve months, in percent, rounded to the nearest integer |
| PaymentMethods.TenMonthsIsSeventeenPercent | src/components/PaymentMethods.tsx:327 | a yearly price of ten monthly prices is shown as a 17% discount |
| PaymentMethods.DiscountsOfTheTable | src/components/PaymentMethods.tsx:101-229 | every paid plan's yearly price is ten monthly prices, so each shows 17% and none shows more than the badge claims |
| PaymentMethods.CollaborationTiers | src/components/PaymentMethods.tsx:128-129 | collaboration and priority support come exactly with premium and institutional |
| PaymentMethods.AgreesWithStatusCard | src/components/PaymentMethods.tsx:118-130 | every tier's limits on the payment screen match the subscription status card, -1 for unlimited |
| PaymentMethods.PaymentSelection.constructor | src/components/PaymentMethods.tsx:59-60 | starts on student, yearly, a paid plan |
| PaymentMethods.PaymentSelection.ClickPlan | src/components/PaymentMethods.tsx:347 | clicking the free card changes nothing, any other card selects it; the selection stays a paid plan |
| PaymentMethods.PaymentSelection.SetBillingCycle | src/components/PaymentMethods.tsx:320-321 | sets the cycle and keeps the plan |
| PaymentMethods.PaymentSelection.OrderAmount | src/components/PaymentMethods.tsx:265-272 | the amount ordered is the selected plan's price for the selected cycle, and it is positive |
| PaymentPage.GetSelectedPlanData | src/pages/Payment.tsx:81-86 | plan data exists exactly for student, premium and institutional, with positive prices |
| PaymentPage.GetAmount | src/pages/Payment.tsx:88-92 | 0 exactly for an unknown plan; the monthly price for "monthly"; the yearly price otherwise |
| PaymentPage.YearlySavingIsExact | src/pages/Payment.tsx:169-171 | the saving shown, two monthly prices, is exactly twelve monthly prices minus the yearly price |
| PaymentPage.View | src/pages/Payment.tsx:97-119 | an unknown plan shows the plan list; a known plan without a user redirects to sign-in; checkout charges the positive amount, shows a saving exactly for "yearly", and labels "monthly" as monthly |
| PaymentPage.UncheckedCycle | src/pages/Payment.tsx:157 | any cycle other than the two is charged, and labelled, as yearly, without a saving |
| PaymentPage.PaymentPageState.constructor | src/pages/Payment.tsx:14-15 | starts with no plan and the monthly cycle |
| PaymentPage.PaymentPageState.ApplySearchParams | src/pages/Payment.tsx:17-23 | a non-empty query value replaces the state; an absent or empty one leaves it |
| PricingPlans.CardIdsAreTiers | src/components/pricing/PricingPlans.tsx:25-100 | the grid shows the four tiers in order with distinct ids |
| PricingPlans.GetCurrentPlan | src/components/pricing/PricingPlans.tsx:132-134 | "free" without a subscription or with an empty tier, otherwise the tier; never empty |
| PricingPlans.IsCurrentPlan | src/components/pricing/PricingPlans.tsx:136-138 | with no tier to go by only "free" is current, otherwise exactly the subscription's tier |
| PricingPlans.ExactlyOneCurrentCard | src/components/pricing/PricingPlans.tsx:136-138 | when the current plan is a tier, exactly one card is marked current |
| PricingPlans.ButtonDisabled | src/components/pricing/PricingPlans.tsx:270 | the button of the current plan's card is disabled and no other; a tier naming no card disables none of the grid's cards |
| PricingPlans.DisplayedPrice | src/components/pricing/PricingPlans.tsx:181 | the card's monthly or yearly price, by the cycle |
| PricingPlans.PriceLabel | src/components/pricing/PricingPlans.tsx:231 | "Miễn phí" exactly when the displayed price is 0, else that price |
| PricingPlans.HandleSelectPlan | src/components/pricing/PricingPlans.tsx:116-130 | no user goes to sign-in; free stays; a paid plan goes to payment with that plan and cycle |
| PricingPlans.CheckoutChargesDisplayedPrice | src/components/pricing/PricingPlans.tsx:116-130 | choosing a paid card leads to a checkout whose amount is the price the card displayed |
| PricingPlans.PricingGrid.constructor | src/components/pricing/PricingPlans.tsx:106 | starts on the monthly cycle |
| PricingPlans.PricingGrid.SetBillingCycle | src/components/pricing/PricingPlans.tsx:106 | sets the cycle |
| OutlineTree.WithoutIsSplice | src/components/ai/EditableOutline.tsx:150 | filtering out index i removes exactly that element when i is in range, and nothing otherwise |
| OutlineTree.TotalSubsectionsAppend | src/components/ai/ExportOptions.tsx:265 | the subsection total of two runs of sections is the sum of their totals |
| EditableOutline.UpdateTitle | src/components/ai/EditableOutline.tsx:84-86 | the new title, with sections and conclusion kept |
| EditableOutline.UpdateSectionTitle | src/components/ai/EditableOutline.tsx:88-95 | only section si's title changes; an index out of range changes nothing |
| EditableOutline.SetSubsection | src/components/ai/EditableOutline.tsx:97-111 | replaces subsection (si, sj) and keeps every other section, subsection and title |
| EditableOutline.UpdateSubsectionTitle | src/components/ai/EditableOutline.tsx:97-111 | only subsection (si, sj) changes, and only its title; out of range, nothing changes |
| EditableOutline.UpdatePoints | src/components/ai/EditableOutline.tsx:168-182 | only subsection (si, sj)'s points change; out of range, nothing changes |
| EditableOutline.UpdateEvidence | src/components/ai/EditableOutline.tsx:184-198 | only subsection (si, sj)'s evidence changes; out of range, nothing changes |
| EditableOutline.UpdateConclusion | src/components/ai/EditableOutline.tsx:200-202 | the new conclusion, with title and sections kept |
| EditableOutline.AddSection | src/components/ai/EditableOutline.tsx:113-128 | the old sections, then one new section holding one new subsection |
| EditableOutline.AddSubsection | src/components/ai/EditableOutline.tsx:130-145 | section si gains one new subsection at its end; nothing else changes |
| EditableOutline.DeleteSection | src/components/ai/EditableOutline.tsx:147-152 | section si is removed when in range, and nothing otherwise |
| EditableOutline.DeleteSubsection | src/components/ai/EditableOutline.tsx:154-166 | subsection sj of section si is removed when in range, and nothing otherwise |
| EditableOutline.TotalSubsectionsUpdate | src/components/ai/EditableOutline.tsx:88-111 | replacing one section changes the subsection total by the difference of their counts |
| EditableOutline.EditsAndSubsectionTotal | src/components/ai/EditableOutline.tsx:113-166 | adding a section or subsection adds one subsection to the total; deleting a subsection in range removes one; deleting a section removes its count |
| EditableOutline.Toggle | src/components/ai/EditableOutline.tsx:74-82 | flips the membership of i and of nothing else |
| EditableOutline.ToggleTwice | src/components/ai/EditableOutline.tsx:74-82 | toggling twice restores the set |
| EditableOutline.ParseLines | src/components/ai/EditableOutline.tsx:339 | the textarea's lines, keeping only the non-blank ones: a string is an item exactly when it is a non-blank line of the text; no item holds a newline |
| EditableOutline.ParseLinesJoin | src/components/ai/EditableOutline.tsx:339 | the text on both sides of a line break is read in turn, so every non-blank line is kept in its order, with blank lines dropped wherever they are |
| EditableOutline.KeepNonBlankKeepsAll | src/components/ai/EditableOutline.tsx:339 | a list of non-blank items passes the filter unchanged |
| EditableOutline.ShowParseRoundTrip | src/components/ai/EditableOutline.tsx:338-339 | items shown joined by newlines parse back to the same items, when none is blank or holds a newline |
| EditableOutline.ParseShowParse | src/components/ai/EditableOutline.tsx:338-339 | re-showing what was parsed and parsing again changes nothing |
| EditableOutline.OutlineEditor.constructor | src/components/ai/EditableOutline.tsx:63-64 | starts from the given outline with the first section expanded |
| EditableOutline.OutlineEditor.ToggleSection | src/components/ai/EditableOutline.tsx:74-82 | the expanded set is toggled at the index; the outline is kept |
| EditableOutline.OutlineEditor.EditTitle | src/components/ai/EditableOutline.tsx:249 | the outline becomes its title update; expansion is kept |
| EditableOutline.OutlineEditor.EditSectionTitle | src/components/ai/EditableOutline.tsx:285-288 | the outline becomes its section-title update |
| EditableOutline.OutlineEditor.EditSubsectionTitle | src/components/ai/EditableOutline.tsx:321 | the outline becomes its subsection-title update |
| EditableOutline.OutlineEditor.EditPoints | src/components/ai/EditableOutline.tsx:338-339 | the points become the parsed lines of the textarea |
| EditableOutline.OutlineEditor.EditEvidence | src/components/ai/EditableOutline.tsx:348-349 | the evidence becomes the parsed lines of the textarea |
| EditableOutline.OutlineEditor.EditConclusion | src/components/ai/EditableOutline.tsx:383-384 | the conclusion becomes the parsed lines of the textarea |
| EditableOutline.OutlineEditor.AppendSection | src/components/ai/EditableOutline.tsx:255 | the outline gains a new section |
| EditableOutline.OutlineEditor.AppendSubsection | src/components/ai/EditableOutline.tsx:360 | section si gains a new subsection |
| EditableOutline.OutlineEditor.RemoveSection | src/components/ai/EditableOutline.tsx:298-301 | section si is removed |
| EditableOutline.OutlineEditor.RemoveSubsection | src/components/ai/EditableOutline.tsx:325 | subsection (si, sj) is removed |
| ExportWriters.Block | src/components/ai/ExportOptions.tsx:139-153 | a list block appears exactly when its flag is set and the list is non-empty |
| ExportWriters.Document | src/components/ai/ExportOptions.tsx:130-370 | each writer's document opens with the style's head, which carries the title, and ends with the style's foot |
| ExportWriters.AppendBlock | src/components/ai/ExportOptions.tsx:139-145 | appends exactly the block |
| ExportWriters.AppendSubsection | src/components/ai/ExportOptions.tsx:137-153 | appends exactly one subsection's heading and shown blocks |
| ExportWriters.AppendSubsections | src/components/ai/ExportOptions.tsx:136-154 | the inner loop appends exactly the subsections' text |
| ExportWriters.AppendSection | src/components/ai/ExportOptions.tsx:134-154 | appends exactly one section's heading and its subsections |
| ExportWriters.AppendSections | src/components/ai/ExportOptions.tsx:133-155 | the outer loop appends exactly the sections' text |
| ExportWriters.Render | src/components/ai/ExportOptions.tsx:130-371 | a writer's output is the head, the sections, the conclusion and the foot of its style |
| ExportWriters.GenerateMarkdown | src/components/ai/ExportOptions.tsx:130-165 | the Markdown document, opening with "# " and the title and a blank line |
| ExportWriters.GenerateHtml | src/components/ai/ExportOptions.tsx:167-257 | the HTML document: the fixed head with the title in both places, then the h1, and closing body and html last |
| ExportWriters.GenerateLatex | src/components/ai/ExportOptions.tsx:316-371 | the LaTeX document: the preamble with the title, and "\end{document}" last |
| ExportWriters.SectionOccurs | src/components/ai/ExportOptions.tsx:133-134 | each section's text and heading occur in the document |
| ExportWriters.SubsectionOccurs | src/components/ai/ExportOptions.tsx:136-153 | each subsection's heading, points and evidence block occur in the document |
| ExportWriters.DocumentHasSections | src/components/ai/ExportOptions.tsx:133-155 | all the sections' text occurs in the document |
| ExportWriters.HideSubsections | src/components/ai/ExportOptions.tsx:139-153 | hiding lists keeps the number of subsections |
| ExportWriters.HideSections | src/components/ai/ExportOptions.tsx:139-153 | hiding lists keeps the number of sections |
| ExportWriters.DocumentIgnoresHidden | src/components/ai/ExportOptions.tsx:139-162 | a list the settings leave out leaves no trace: the document equals that of the outline with those lists emptied |
| ExportWriters.Xml | src/components/ai/ExportOptions.tsx:381-400 | the XML opens with the declaration, the root and the title, and closes the root last |
| ExportWriters.XmlIgnoresHidden | src/components/ai/ExportOptions.tsx:393-399 | the XML, too, ignores a list the settings leave out |
| ExportWriters.XmlKeepsEmptyPoints | src/components/ai/ExportOptions.tsx:393 | with points included, a subsection without points still has an empty points element in XML, while the text writers show no block for it |
| ExportCsv.EscapeQuotes | src/components/ai/ExportOptions.tsx:295 | doubling quotes lengthens the field by its number of quotes |
| ExportCsv.EscapeRoundTrip | src/components/ai/ExportOptions.tsx:295 | an escaped field has its quotes in pairs and un-doubling them gives back the field |
| ExportCsv.UnescapeRoundTrip | src/components/ai/ExportOptions.tsx:295 | a field whose quotes come in pairs is the escape of its un-doubling |
| ExportCsv.ItemRows | src/components/ai/ExportOptions.tsx:293-303 | one row per item, in order, with the item's quotes doubled |
| ExportCsv.SubsectionsRowCount | src/components/ai/ExportOptions.tsx:287-304 | a section's rows are one title row per subsection plus one row per included point and evidence item |
| ExportCsv.SectionsRowCount | src/components/ai/ExportOptions.tsx:286-305 | the same count summed over all sections |
| ExportCsv.CsvRowCount | src/components/ai/ExportOptions.tsx:283-314 | the header, then the title, point and evidence rows, then the conclusion rows when included; the header comes first |
| ExportCsv.Csv | src/components/ai/ExportOptions.tsx:283-314 | the CSV text opens with the header line |
| ExportCsv.AppendItemRows | src/components/ai/ExportOptions.tsx:294-296 | the item loop appends exactly the item rows |
| ExportCsv.AppendSubsectionRows | src/components/ai/ExportOptions.tsx:288-303 | appends exactly one subsection's rows |
| ExportCsv.AppendSubsectionsRows | src/components/ai/ExportOptions.tsx:287-304 | the inner loop appends exactly the section's rows |
| ExportCsv.GenerateCsv | src/components/ai/ExportOptions.tsx:283-314 | the nested loops produce exactly the CSV |
| ExportOptions.ByCategory | src/components/ai/ExportOptions.tsx:433-437 | the filter keeps exactly the formats of the category |
| ExportOptions.ByCategoryCount | src/components/ai/ExportOptions.tsx:433-437 | a category's list has as many entries as the table has formats of it |
| ExportOptions.CategoriesCover | src/components/ai/ExportOptions.tsx:433-437 | the counts of the three categories add up to the number of formats |
| ExportOptions.FormatsByCategoryPartition | src/components/ai/ExportOptions.tsx:433-437 | each of the eight formats is listed under its own category and no other |
| ExportOptions.FindFormat | src/components/ai/ExportOptions.tsx:412 | the format with that id, or none when no format has it |
| ExportOptions.StripMarks | src/components/ai/ExportOptions.tsx:380 | removes every '#' and '*' and nothing else |
| ExportOptions.StripMarksAppend | src/components/ai/ExportOptions.tsx:380 | stripping distributes over concatenation |
| ExportOptions.StripMarksIdempotent | src/components/ai/ExportOptions.tsx:380 | stripping twice is stripping once |
| ExportOptions.StructuredTextShape | src/components/ai/ExportOptions.tsx:380 | the structured text holds no mark and opens with the stripped title |
| ExportOptions.StructuredText | src/components/ai/ExportOptions.tsx:380 | holds neither '#' nor '*' and is no longer than the Markdown document |
| ExportOptions.JsonSubsections | src/components/ai/ExportOptions.tsx:270-275 | one entry per subsection, numbered "i+1.j+1", with points and evidence present exactly when included |
| ExportOptions.JsonStructure | src/components/ai/ExportOptions.tsx:267-276 | one entry per section, numbered i+1, with its subsections |
| ExportOptions.StructureCounts | src/components/ai/ExportOptions.tsx:265 | the JSON structure holds as many subsections as the outline |
| ExportOptions.JsonMetadataMatchesStructure | src/components/ai/ExportOptions.tsx:262-266 | the metadata counts agree with the structure the JSON carries |
| ExportOptions.JsonData | src/components/ai/ExportOptions.tsx:259-281 | the title, the section count equal to the structure's length and the outline's, the subsection total, and the conclusion exactly when it is included |
| ExportOptions.ContentFor | src/components/ai/ExportOptions.tsx:373-403 | JSON exactly for "json"; an unknown format (and "markdown", "docx_simple") gives the Markdown; LaTeX ends with "\end{document}" |
| ExportOptions.GenerateContent | src/components/ai/ExportOptions.tsx:373-403 | the content chosen by format id |
| ExportOptions.SanitizeChar | src/components/ai/ExportOptions.tsx:423 | a lower-case letter or digit, '_' exactly for a character that is not an ASCII letter or digit; an upper-case letter becomes its lower-case letter, and lower-case letters and digits are kept |
| ExportOptions.Sanitize | src/components/ai/ExportOptions.tsx:423 | sanitises character by character, keeping the length |
| ExportOptions.SanitizeShape | src/components/ai/ExportOptions.tsx:423 | only safe characters; lower-case letters and digits are kept; sanitising is idempotent |
| ExportOptions.ExportFileName | src/components/ai/ExportOptions.tsx:423 | as long as the title plus "_outline." plus the extension; the title part is the sanitised title, so only lower-case letters, digits and '_'; then "_outline.", ending with the extension |
| ExportOptions.HandleExport | src/components/ai/ExportOptions.tsx:411-431 | no download for an unknown format; otherwise the content of that format, the JSON or plain-text type, and the sanitised file name with the format's extension |
| OutlineGenerator.AppendList | src/components/ai/OutlineGenerator.tsx:104-110 | a non-empty list appends its heading, its "- " lines and a blank line; an empty one appends nothing |
| OutlineGenerator.ExportSubsection | src/components/ai/OutlineGenerator.tsx:102-118 | appends one subsection exactly as the export dialog's Markdown writer does under default settings |
| OutlineGenerator.ExportSubsections | src/components/ai/OutlineGenerator.tsx:101-119 | the inner loop appends the subsections as the export dialog's Markdown writer does under default settings |
| OutlineGenerator.ExportSection | src/components/ai/OutlineGenerator.tsx:99-119 | appends one section exactly as the export dialog's Markdown writer does with numbering on |
| OutlineGenerator.ExportSections | src/components/ai/OutlineGenerator.tsx:98-120 | the outer loop appends the sections as the export dialog's Markdown writer does under default settings |
| OutlineGenerator.ExportText | src/components/ai/OutlineGenerator.tsx:96-127 | the generator's export text is exactly the export dialog's Markdown with numbering on and all lists included |
| OutlineGenerator.GeneratorState.constructor | src/components/ai/OutlineGenerator.tsx:31-36 | starts with empty inputs, no outline and nothing expanded |
| OutlineGenerator.GeneratorState.Generate | src/components/ai/OutlineGenerator.tsx:41-81 | calls the backend exactly when topic, level and word count are all filled; on success shows the outline with the first section expanded; otherwise changes nothing |
| OutlineGenerator.GeneratorState.ToggleSection | src/components/ai/OutlineGenerator.tsx:83-91 | toggles the index in the expanded set; nothing else changes |
| OutlineGenerator.GeneratorState.ExportOutline | src/components/ai/OutlineGenerator.tsx:93-136 | no download without an outline; otherwise the export text as Markdown, named from the sanitised title |
| DocumentSummarizer.DisplayName | src/components/ai/DocumentSummarizer.tsx:120 | the file name, or "Untitled" when it is empty |
| DocumentSummarizer.TopicsBlock | src/components/ai/DocumentSummarizer.tsx:124-130 | empty exactly when there are no topics; otherwise starts with the topics heading |
| DocumentSummarizer.InsightsBlock | src/components/ai/DocumentSummarizer.tsx:132-137 | empty exactly when there are no insights; otherwise starts with the insights heading |
| DocumentSummarizer.InsightNumbered | src/components/ai/DocumentSummarizer.tsx:134-136 | insight k appears as the line "k+1. insight" |
| DocumentSummarizer.TopicListed | src/components/ai/DocumentSummarizer.tsx:126-128 | each topic appears as a "- " line |
| DocumentSummarizer.SummaryExport | src/components/ai/DocumentSummarizer.tsx:120-137 | opens with the header and the main summary, ends with the insights block, and has nothing more when there are neither topics nor insights |
| DocumentSummarizer.AppendTopics | src/components/ai/DocumentSummarizer.tsx:124-130 | the loop appends exactly the topics block |
| DocumentSummarizer.AppendInsights | src/components/ai/DocumentSummarizer.tsx:132-137 | the loop appends exactly the numbered insights block |
| DocumentSummarizer.ExportSummaryText | src/components/ai/DocumentSummarizer.tsx:120-137 | the loops build exactly the summary export |
| DocumentSummarizer.TrailingRun | src/components/ai/DocumentSummarizer.tsx:143 | the longest tail free of '/' and '.' |
| DocumentSummarizer.NoExtension | src/components/ai/DocumentSummarizer.tsx:143 | when the tail is not preceded by a dot, no dot in the name starts an extension |
| DocumentSummarizer.StripExtension | src/components/ai/DocumentSummarizer.tsx:143 | the name without its final extension when there is one, otherwise the name unchanged |
| DocumentSummarizer.TrailingRunOf | src/components/ai/DocumentSummarizer.tsx:143 | the tail of "p.e" is e when e has no '/' or '.' |
| DocumentSummarizer.StripExtensionOf | src/components/ai/DocumentSummarizer.tsx:143 | stripping "p.e" for an extension e gives p |
| DocumentSummarizer.SummaryFileName | src/components/ai/DocumentSummarizer.tsx:143 | the stripped name plus "_summary.md", or "summary_summary.md" when nothing is left |
| DocumentSummarizer.SummarizerState.constructor | src/components/ai/DocumentSummarizer.tsx:22-27 | starts with empty inputs and no summary |
| DocumentSummarizer.SummarizerState.Generate | src/components/ai/DocumentSummarizer.tsx:76-115 | calls the backend exactly when content and length are set; keeps the reply on success, the old summary otherwise |
| DocumentSummarizer.SummarizerState.ExportSummary | src/components/ai/DocumentSummarizer.tsx:117-146 | no download without a summary; otherwise its Markdown export under the summary file name |
| Text.TrimEmptyIffBlank | src/components/ai/PlagiarismDetector.tsx:82 | `trim()` is empty exactly for a string made only of whitespace |
| Text.KeepNonBlank | src/components/ai/EditableOutline.tsx:339 | `filter(p => p.trim())`: a string is kept exactly when it is a non-blank item of the input, and no longer than the input |
| Text.KeepNonBlankAppend | src/components/ai/EditableOutline.tsx:339 | the filter keeps order: filtering a concatenation is filtering each part |
| Text.SplitOnSeparator | src/components/ai/EditableOutline.tsx:339 | `split('\n')` of a text with a break splits the two sides apart |
| Text.SplitJoin | src/components/ai/EditableOutline.tsx:338-339 | splitting the join of items that lack the separator gives back the items |
| Text.SplitRunsLength | src/components/ai/WritingAssistant.tsx:71-72 | `split(/re+/)` yields one more piece than the string has separator runs |
| Text.WordCount | src/components/ai/DocumentSummarizer.tsx:148 | the non-empty pieces of the whitespace split are the whitespace-free runs; blank text has 0 words |
| Text.SplitOn | supabase/functions/generate-full-article/index.ts:112 | splitting on a character yields one more piece than the character's occurrences, none containing it |
| Common.MapOfPairsKeys | src/hooks/useSubscription.ts:80-83 | the folded object has a key exactly when some pair carries it |
| Common.MapOfPairsLastWins | src/hooks/useSubscription.ts:80-83 | a key maps to the value of the last pair carrying it |
| Common.FillMap | src/components/ai/CollaborationTools.tsx:262-265 | the `forEach` fill yields the last-wins map of the pairs |
| FullArticle.Tone | supabase/functions/generate-full-article/index.ts:18 | the given tone, or "academic" when absent |
| FullArticle.Model | supabase/functions/generate-full-article/index.ts:18 | the given model, or "anthropic/claude-3.5-sonnet" when absent |
| FullArticle.MaxTokens | supabase/functions/generate-full-article/index.ts:94 | between 2000 and 4000; twice the word count in between; 2000 below 1000 words and 4000 from 2000 |
| FullArticle.MaxTokensMonotone | supabase/functions/generate-full-article/index.ts:94 | a longer article never gets a smaller budget |
| FullArticle.ConclusionLines | supabase/functions/generate-full-article/index.ts:44-49 | empty exactly without conclusion points; otherwise starts with "Conclusion:" |
| FullArticle.AppendSubsectionEntries | supabase/functions/generate-full-article/index.ts:33-40 | the inner loop appends exactly the subsection entries |
| FullArticle.BuildOutlineText | supabase/functions/generate-full-article/index.ts:30-49 | the loops build exactly the outline text |
| FullArticle.OutlineText | supabase/functions/generate-full-article/index.ts:30-49 | opens with the title and a blank line, and is only that for an outline with no sections and no conclusion |
| FullArticle.SectionBlockOccurs | supabase/functions/generate-full-article/index.ts:31-42 | each section's block and its numbered line occur in the text |
| FullArticle.SubsectionEntryOccurs | supabase/functions/generate-full-article/index.ts:33-34 | each subsection's entry occurs in the text |
| FullArticle.PointOccurs | supabase/functions/generate-full-article/index.ts:35-39 | each key point occurs as an indented "- " line |
| FullArticle.ConclusionPointOccurs | supabase/functions/generate-full-article/index.ts:46-48 | each conclusion point occurs as a "- " line |
| FullArticle.SectionBlockEnds | supabase/functions/generate-full-article/index.ts:41 | every section block ends with a blank line |
| FullArticle.OutlineTextIgnoresEvidence | supabase/functions/generate-full-article/index.ts:33-40 | the evidence lists never reach the prompt: the text is the same with them emptied |
| FullArticle.ResponseWordCount | supabase/functions/generate-full-article/index.ts:112 | one more than the number of spaces, so at least 1 |
| FullArticle.HandleRequest | supabase/functions/generate-full-article/index.ts:17-131 | no call without a configured key, answering 500; the call carries the model, the token budget, the outline text, the topic, the academic level, the word count and the tone; an article exactly when the call succeeds; every error is 500 |
| SummarizerFunction.LengthInstruction | supabase/functions/document-summarizer/index.ts:25-38 | the instruction of each of the three lengths, and the default one for anything else |
| SummarizerFunction.InstructionDeterminesLength | supabase/functions/document-summarizer/index.ts:25-38 | two lengths share an instruction only when equal or both unrecognised |
| SummarizerFunction.OriginalTitle | supabase/functions/document-summarizer/index.ts:106 | the file name, or "Untitled Document" when empty; never empty |
| SummarizerFunction.StoredContent | supabase/functions/document-summarizer/index.ts:108 | a prefix of the content, of length the smaller of 10000 and the content's |
| SummarizerFunction.StoredContentIdempotent | supabase/functions/document-summarizer/index.ts:108 | truncating twice stores what truncating once does |
| SummarizerFunction.HandleRequest | supabase/functions/document-summarizer/index.ts:15-126 | no call without a key; a summary exactly when the call succeeds, else 500; a row is written exactly for a successful summary with a user id and a service key, with the fallback title and truncated content |
| PlagiarismDetector.BandOf | src/components/ai/PlagiarismDetector.tsx:121-131 | safe below 15%, caution below 30%, high risk from 30%, each both ways |
| PlagiarismDetector.SimilarityColor | src/components/ai/PlagiarismDetector.tsx:121-125 | green below 15, yellow below 30, red from 30 |
| PlagiarismDetector.SimilarityBadge | src/components/ai/PlagiarismDetector.tsx:127-131 | the safe, warning and high-risk badges on the same thresholds |
| PlagiarismDetector.ColorAndBadgeAgree | src/components/ai/PlagiarismDetector.tsx:121-131 | the colour and the badge always come from the same band |
| PlagiarismDetector.SameColorSameBadge | src/components/ai/PlagiarismDetector.tsx:121-131 | equal colours mean equal badges |
| PlagiarismDetector.BandsMonotone | src/components/ai/PlagiarismDetector.tsx:121-131 | a higher percentage never lands in a safer band |
| PlagiarismDetector.RiskBadge | src/components/ai/PlagiarismDetector.tsx:272-276 | "high" and "medium" get their badges; every other level shows as low risk |
| PlagiarismDetector.HighRiskBadgesAgree | src/components/ai/PlagiarismDetector.tsx:127-131 | a high-risk phrase carries the badge of a similarity of 30% or more |
| PlagiarismDetector.PlagiarismState.constructor | src/components/ai/PlagiarismDetector.tsx:37-40 | starts with no text and no result |
| PlagiarismDetector.PlagiarismState.WordCountShown | src/components/ai/PlagiarismDetector.tsx:133 | the number of whitespace-free runs of the text; 0 for blank text |
| PlagiarismDetector.PlagiarismState.Check | src/components/ai/PlagiarismDetector.tsx:81-119 | calls the backend exactly for non-blank text; a success replaces the result, a failure keeps it |
| WritingAssistant.SentenceCount | src/components/ai/WritingAssistant.tsx:71 | one more than the runs of '.', '!' and '?' marks, so never 0 |
| WritingAssistant.RawWordCount | src/components/ai/WritingAssistant.tsx:72 | one more than the runs of whitespace, empty pieces included |
| WritingAssistant.RatioBelow | src/components/ai/WritingAssistant.tsx:75-77 | comparing the average with a bound is comparing words with bound times sentences |
| WritingAssistant.ReadabilityInIntegers | src/components/ai/WritingAssistant.tsx:70-78 | easy below 15 words per sentence, medium below 20, hard from 20, each both ways |
| WritingAssistant.ReadabilityLevel | src/components/ai/WritingAssistant.tsx:70-78 | one of the three levels, and a text of fewer than 15 words is always easy |
| WritingAssistant.WordCountsCompare | src/components/ai/WritingAssistant.tsx:72-80 | the word count shown never exceeds the readability count; empty text shows 0 and counts 1 |
| WritingAssistant.AssistantState.constructor | src/components/ai/WritingAssistant.tsx:14-19 | starts empty, without suggestions |
| WritingAssistant.AssistantState.WordCountShown | src/components/ai/WritingAssistant.tsx:80 | at most the raw count; 0 for blank text |
| WritingAssistant.AssistantState.ProcessText | src/components/ai/WritingAssistant.tsx:23-68 | calls exactly with text and style set; "improve" keeps the reply as suggestions and shows its improved text; any other action shows the reply's text and clears suggestions; a failure changes nothing |
| WritingAssistant.AssistantState.UseResult | src/components/ai/WritingAssistant.tsx:210 | the improved text becomes the current text; nothing else changes |
| CollaborationTools.UserIds | src/components/ai/CollaborationTools.tsx:249 | the comments' user ids, in order |
| CollaborationTools.Dedupe | src/components/ai/CollaborationTools.tsx:249 | the same ids, each once, no longer than the input |
| CollaborationTools.DedupeKeepsFirst | src/components/ai/CollaborationTools.tsx:249 | the first id stays first |
| CollaborationTools.DedupeDistinct | src/components/ai/CollaborationTools.tsx:249 | distinct ids are kept as they are |
| CollaborationTools.DedupeOrder | src/components/ai/CollaborationTools.tsx:249 | the ids come out in the order of their first occurrence, as a `Set` iterates |
| CollaborationTools.ProfilePairs | src/components/ai/CollaborationTools.tsx:262-265 | one (user id, profile) pair per profile row, in order |
| CollaborationTools.ProfileFor | src/components/ai/CollaborationTools.tsx:268-275 | the stored profile's name and email, or "Unknown User" when there is none |
| CollaborationTools.Merge | src/components/ai/CollaborationTools.tsx:268-275 | one comment per row, in order, with the row's fields and its user's profile |
| CollaborationTools.UnknownWithoutProfile | src/components/ai/CollaborationTools.tsx:257-275 | a comment whose user has no profile row, or whose profile query failed, shows "Unknown User" |
| CollaborationTools.LastProfileWins | src/components/ai/CollaborationTools.tsx:262-275 | with several profile rows for a user, the last one is shown |
| CollaborationTools.CollaborationState.constructor | src/components/ai/CollaborationTools.tsx:54-62 | starts empty, the invite role "viewer" |
| CollaborationTools.CollaborationState.CreateProject | src/components/ai/CollaborationTools.tsx:88-130 | calls exactly for a non-blank title; a success prepends the project and clears the form; otherwise nothing changes |
| CollaborationTools.CollaborationState.InviteCollaborator | src/components/ai/CollaborationTools.tsx:132-172 | calls exactly for a non-blank email with a project selected; a success clears the email |
| CollaborationTools.CollaborationState.AddComment | src/components/ai/CollaborationTools.tsx:174-206 | calls exactly for a non-blank comment with a project selected; a success prepends the comment and clears the input |
| CollaborationTools.CollaborationState.LoadProjectComments | src/components/ai/CollaborationTools.tsx:225-282 | no comments on a failed or empty query; otherwise profiles are requested once per distinct user and the comments are the merge of the rows with them |
| CollaborationTools.CollaborationState.SelectProject | src/components/ai/CollaborationTools.tsx:284-288 | selects the project and loads its comments |

## Left out

- Rendering, toasts, loading and processing flags, progress bars, dialogs and navigation
  effects are left out. Where a page decides between views, the decision is a function.
- Network and database work is left out: Supabase queries, inserts, RPCs, edge-function
  invocations, the model API, and the authentication context. Each call's outcome is a
  parameter. Interleavings of concurrent async calls are not modelled.
- File download (Blob, object URLs, link clicks) and file reading (FileReader) are left out.
  A download is the value (content, type, file name) that would be handed to the browser.
- JSON (de)serialisation is left out: `JSON.stringify` of the export, the `exportDate`
  timestamp (a clock), and the parsing of the model's reply. `ExportOptions.JsonData` is
  the object before stringification, without the date.
- Prompt wording sent to the model is left out. Only the parts that vary with the input are
  modelled: for the article, the outline text, the topic, the academic level, the target
  word count, the tone, the model and the token budget; for the summary, the length
  instruction and the content.
- JavaScript property lookup also finds `Object.prototype` names. A plan id or tier such as
  "toString" would then be accepted (`selectedPlan in pricingData`,
  `limits[tier]?.[feature]`). That is not modelled: only the table's own keys are found.
- Floating point is left out:
  - Percentages are `real` (plagiarism similarity, readability average) or exact integer
    arithmetic (discount, and the usage percent, floored).
  - `Math.round` is modelled exactly on rationals.
  - NaN and infinities are not modelled.
- SubscriptionStatus.UsagePercent: the source computes a floating-point percentage; the
  model floors it to an integer. A 0/0 ratio is NaN in the source; the model gives 0.
- SubscriptionStatus.PlanLimitsFor: the status card reads `plan_id` and `status` from the
  subscription. The hook's data type has neither field, so in the running page they are
  always undefined. The model takes both as optional strings and does not model the mismatch.
- The limit tables of the hook, the status card and the payment screen are separate data
  in the source and disagree in places. Each is modelled as its own table, and only the
  payment screen against the status card is related (`PaymentMethods.AgreesWithStatusCard`).
- Strings are sequences of characters. JavaScript's UTF-16 code units are not modelled.
  This affects the 10000-character truncation in the summarizer function and the `[^a-z0-9]`
  file name sanitiser, which treat a non-BMP character as two units.
- `URLSearchParams` decoding on the checkout page is not modelled. Query values arrive
  decoded, as optional strings.
- The "docx_simple" export produces the Markdown document, as the source's default branch
  does; no Word file is produced.
- CSV title fields are written raw (unescaped), as in the source. No CSV parser is modelled.
- FullArticle.HandleRequest: `wordCount` is taken as an integer. JavaScript's coercion of a
  string or missing value in `wordCount * 2` is not modelled. Optional request fields that are
  absent (undefined) are modelled only for tone and model; `outline.points` and
  `outline.conclusion` are taken as present lists.
- The CORS preflight branch of the edge functions (`req.method === 'OPTIONS'` answered
  with the CORS headers) and the CORS headers on every response are transport details and
  are left out; `FullArticle.HandleRequest` and `SummarizerFunction.HandleRequest` model a
  POST request.
- SummarizerFunction.HandleRequest: the result of the insert is not examined by the
  source, so the model does not model a failing insert.
- CollaborationTools: the stored profile object also carries the user id; the model's
  `Profile` keeps only the name and email that are displayed. `loadProjects` and
  `loadProjectVersions` (plain list fetches) are not part of this model.
- EditableOutline: the full-article generation, which calls the `generate-full-article`
  function, is not modelled on the page side; that function is modelled by `FullArticle`.
  The editing-state indicator and the preview are rendering.
- The `citation-manager`, `generate-outline`, `plagiarism-detector`, `writing-assistant` and
  `collaboration-manager` edge functions, and `ExportManager.tsx`, are not part of this model.
