# Ask Anything widgets and gists — a Dafny model

This project models the core of the Ask Anything UI repository. The core has three parts:

- **Embeddable widget runtime.** `WidgetManager` mounts one floating chat widget per container id. It renders into a shadow root with a generated style sheet (position, theme presets, custom CSS variables), and it can destroy or reconfigure a widget. The floating widget keeps a button/card toggle and a message list. It talks to the chat API through `useWidgetAPI`, which builds the request, settles the response and records loading/error state.
- **Gist data path.**
  - The gist creation wizard collects a type, title, slug, goal, audience, vibe and source URL through a reducer-backed form. It validates the form and posts a request body.
  - The `create-preview` zod schema accepts or rejects that body.
  - The content generator derives slugs, hero text and tiles, and the template helpers build headlines, subheads, tiles and vibe styling.
  - The Convex `gists` table stores the gists and answers queries by slug, user and status.
- **Small UI state machines.** These are the eighteen-phase onboarding flow, the expanding glass container, the rotating "Searching through" carousel and the readiness score gauge.

Pure code is modelled as datatypes, functions and lemmas. Components whose state changes step by step are modelled as classes:

- the widget manager's registry;
- the floating widget and card;
- the API hook;
- the wizard;
- the Convex table;
- the onboarding flow;
- the glass container;
- the carousel;
- the gauge.

Their methods carry `modifies` clauses and state the whole new state. An `async` handler is split at its `await` into a method that starts the work and a method that receives the outcome. A timer becomes a method that the environment calls when the timer fires; its precondition says the timer is still live. A callback into the host page is recorded in a sequence field, in call order.

The network, the clock, `Date.now()` and URL parsing are parameters: a fetch outcome, a number and an `isUrl` predicate.

## Model

| member | source | states |
|---|---|---|
| DesignTokens.ThemePreset | widgets/design-tokens.ts:49-62 | light and dark have a preset and custom has none; each preset sets exactly the four widget CSS variables, in order, with no newline |
| DesignTokens.WidgetCssVariablesDistinct | widgets/design-tokens.ts:39-44 | the four widget CSS variable names are pairwise distinct |
| DesignTokens.PresetsAreTokenSets | widgets/design-tokens.ts:49-62 | both presets are complete token sets keyed by the four variables |
| DesignTokens.MergeThemeTokens | widgets/design-tokens.ts:67-72 | an override wins for every key it names and the base answers every other key; the key order is the base's; no overrides returns the base unchanged |
| DesignTokens.Declarations | widgets/design-tokens.ts:77-82 | one `key: value;` declaration per token, in token order |
| DesignTokens.HostBlockLines | widgets/design-tokens.ts:77-82 | splitting the host CSS at newlines gives back `:host {`, the declarations one per line, and `}` |
| DesignTokens.PresetCssLines | widgets/design-tokens.ts:67-82 | for a preset theme with overrides, the host CSS lines are the declarations of the merged tokens |
| DesignTokens.PresetsHaveNoNewline | widgets/design-tokens.ts:49-62 | no preset key or value contains a newline |
| DesignTokens.LookupDistinct | widgets/design-tokens.ts:67-72 | in an object with distinct keys, looking up an entry's key finds that entry's value |
| JsObject.Keys | widgets/design-tokens.ts:79 | `Object.entries` keys, position by position |
| JsObject.Lookup | widgets/design-tokens.ts:67-72 | a key is absent iff no entry has it; a found value belongs to an entry with that key |
| JsObject.Set | widgets/design-tokens.ts:67-72 | assigning an existing key keeps the key order; assigning a new key appends it |
| JsObject.LookupSet | widgets/design-tokens.ts:67-72 | after an assignment, that key reads the new value and every other key reads as before |
| JsObject.SetKeepsDistinct | widgets/design-tokens.ts:67-72 | assignment keeps keys distinct |
| JsObject.SpreadEmpty | widgets/design-tokens.ts:67-72 | spreading an empty object changes nothing |
| JsObject.SpreadKeepsDistinct | widgets/design-tokens.ts:67-72 | an object spread keeps keys distinct |
| JsObject.LookupSpread | widgets/design-tokens.ts:67-72 | `{...a, ...b}` answers each key from `b` when `b` has it and from `a` otherwise |
| JsObject.KeysSpread | widgets/design-tokens.ts:67-72 | the keys of `{...a, ...b}` are `a`'s keys followed by `b`'s new keys |
| JsObject.KeysAppend | widgets/design-tokens.ts:67-72 | the keys of a concatenation are the concatenated keys |
| JsObject.KeysSpreadOverridesOnly | widgets/design-tokens.ts:67-72 | spreading only existing keys keeps the key order |
| JsObject.NewKeysNone | widgets/design-tokens.ts:67-72 | no new keys when every key already exists |
| JsObject.NewKeysMembers | widgets/design-tokens.ts:67-72 | a key is new iff `b` has it and `a` does not |
| JsObject.SpreadEntriesFrom | widgets/design-tokens.ts:67-72 | every entry of a spread comes from one of its operands |
| JsObject.SetEntriesFrom | widgets/design-tokens.ts:67-72 | every entry after an assignment is old or the assigned one |
| JsObject.SpreadDisjoint | widgets/widget-manager.tsx:106 | spreading disjoint keys is concatenation |
| JsObject.AppendNew | widgets/widget-manager.tsx:106 | adding a new key appends it, like an assignment |
| JsObject.DistinctTail | widgets/widget-manager.tsx:106 | a later entry of a distinct-key object has a key other than the first's |
| Text.Split | widgets/design-tokens.ts:77-82 | splitting yields at least one part |
| Text.SplitWithout | widgets/design-tokens.ts:77-82 | a string without the separator splits into itself |
| Text.SplitAfterPart | widgets/design-tokens.ts:77-82 | a separator-free part then the separator splits off as one part |
| Text.SplitJoin | widgets/design-tokens.ts:77-82 | splitting a `join('\n')` of newline-free parts gives back the parts |
| Text.JoinLength | app/api/create-preview/validation.ts:51 | a join's length is the parts' lengths plus one separator between each pair |
| Text.JoinHasParts | app/api/create-preview/validation.ts:51 | every part occurs in the join, at the offset of the parts before it plus one separator each |
| Text.JoinHasSeparators | app/api/create-preview/validation.ts:51 | one separator stands right after each part but the last |
| Text.InfixExtend | widgets/widget-manager.tsx:40-55 | a substring stays a substring when text is added around it |
| Text.InfixTrans | widgets/widget-manager.tsx:40-55 | a substring of a substring is a substring |
| Text.TrimStart | components/widgets/floating-widget/floating-widget-card.tsx:43 | drops exactly the leading whitespace: what remains is a suffix not starting with whitespace |
| Text.TrimEnd | components/widgets/floating-widget/floating-widget-card.tsx:43 | drops exactly the trailing whitespace |
| Text.Trim | components/widgets/floating-widget/floating-widget-card.tsx:43 | the result is the input with only whitespace cut from either end, has no whitespace at either end, and is empty iff the input is all whitespace |
| Text.TrimUnique | components/widgets/floating-widget/floating-widget-card.tsx:43 | any text cut from the input at whitespace alone and without whitespace at its ends is the trimmed text, so the trim contract determines the result |
| Text.TrimInfix | components/widgets/floating-widget/floating-widget-card.tsx:43 | trimming both ends leaves the text at its original position |
| Text.TrimEmpty | components/widgets/floating-widget/floating-widget-card.tsx:43 | the trimmed text is empty iff the input is all whitespace |
| Text.NatToString | hooks/use-widget-api.ts:39 | decimal digits with no leading zero |
| Text.NatToStringValue | hooks/use-widget-api.ts:39 | the digits read back as the number |
| Text.NatToStringInjective | hooks/use-widget-api.ts:39 | distinct numbers print differently |
| WidgetManager.MergeConfigLaws | widgets/widget-manager.tsx:124-138 | merging an empty patch changes nothing; merging a patch twice is merging it once; a full patch replaces the fields it carries |
| WidgetManager.MergeKeepsUnpatched | widgets/widget-manager.tsx:124-138 | fields a patch leaves out are kept and fields it carries are taken |
| WidgetManager.PositionStyles | widgets/widget-manager.tsx:79-88 | each known position maps to its CSS; any other maps to bottom-right |
| WidgetManager.InlineThemesArePresets | widgets/widget-manager.tsx:91-104 | the inline light and dark themes equal the design-token presets |
| WidgetManager.ThemeStylesAgreeWithTokens | widgets/widget-manager.tsx:90-113 | for light or dark, the generated theme CSS is the host CSS of the merged design tokens |
| WidgetManager.ThemeStylesWithoutPreset | widgets/widget-manager.tsx:90-113 | for any other theme, only the custom styles are declared |
| WidgetManager.ThemeStylesDeclare | widgets/widget-manager.tsx:106-112 | every theme or custom key is declared with the custom value if one is given, else the theme's |
| WidgetManager.SevenParts | widgets/widget-manager.tsx:40-55 | each interpolated piece of the style template occurs in the result |
| WidgetManager.StyleTextParts | widgets/widget-manager.tsx:40-55 | the style text contains the widget CSS, the position CSS and the theme CSS |
| WidgetManager.StyleDeclares | widgets/widget-manager.tsx:40-55 | the style written at init declares every theme and custom key with its winning value |
| WidgetManager.Manager.StyleOf | widgets/widget-manager.tsx:40-55 | a mounted widget's style contains the widget CSS |
| WidgetManager.Manager.constructor | widgets/widget-manager.tsx:11-77 | an empty registry over the page's elements and shadow hosts |
| WidgetManager.Manager.Init | widgets/widget-manager.tsx:11-77 | registers the container with a fresh root and the config as given; creates and appends the container only when missing; attaches a shadow root; renders once; calls onReady iff configured |
| WidgetManager.Manager.Destroy | widgets/widget-manager.tsx:115-122 | an unknown id changes nothing; a known one is unmounted, its element removed and the id unregistered |
| WidgetManager.Manager.UpdateConfig | widgets/widget-manager.tsx:124-138 | an unknown id changes nothing; a known one stores the merged config and re-renders with it, keeping its style |
| WidgetManager.TwoWidgets | widgets/widget-manager.tsx:11-122 | two widgets with different ids are independent: destroying one leaves the other mounted with its config |
| WidgetApi.Endpoint | hooks/use-widget-api.ts:8 | a given non-empty endpoint is used, else the default API URL |
| WidgetApi.Role | hooks/use-widget-api.ts:27-30 | a user message maps to role user and every other message to assistant |
| WidgetApi.HistoryPayload | hooks/use-widget-api.ts:27-30 | one history item per message, in order, with its text; the role is "user" for a user message and "assistant" for every other sender |
| WidgetApi.HistoryPayloadAppend | hooks/use-widget-api.ts:27-30 | the history of a concatenation is the concatenation of histories |
| WidgetApi.BuildRequest | hooks/use-widget-api.ts:17-37 | a POST to the endpoint with distinct headers (JSON content type, bearer key, widget version) and a body carrying the message, history, timestamp and source |
| WidgetApi.Settle | hooks/use-widget-api.ts:38-48 | success iff the response is ok with a JSON body, yielding its message; a non-ok status throws `API error: <status>`; an ok response whose body does not parse fails with the parse error's message; a rejected fetch rethrows its error |
| WidgetApi.ApiErrorText | hooks/use-widget-api.ts:38-48 | a non-ok response always fails, its error text names the status, and different statuses give different failures |
| WidgetApi.ChatApi.constructor | hooks/use-widget-api.ts:8-15 | not loading, no error, endpoint defaulted |
| WidgetApi.ChatApi.Begin | hooks/use-widget-api.ts:17-37 | sets loading, clears the error and returns the request |
| WidgetApi.ChatApi.Complete | hooks/use-widget-api.ts:38-51 | returns the settled outcome, clears loading, and records the error text on failure |
| WidgetApi.ChatApi.SendMessage | hooks/use-widget-api.ts:17-51 | a full send: the request built from the inputs, the settled result, loading off, error set iff failed |
| FloatingWidget.SettingsOf | components/widgets/floating-widget/floating-widget.tsx:12-23 | each prop is taken when given, else its default (dark, Ask, the header title, Ask Anything, collapsed) |
| FloatingWidget.ToggleCallbacks | components/widgets/floating-widget/floating-widget.tsx:28-36 | at most one call, only of the callback matching the new state: onExpand iff the widget expands and onExpand is set; onCollapse likewise on collapse |
| FloatingWidget.Widget.constructor | components/widgets/floating-widget/floating-widget.tsx:24-26 | starts at initialExpanded with no messages and an idle API hook |
| FloatingWidget.Widget.View | components/widgets/floating-widget/floating-widget.tsx:73-93 | the button shows iff collapsed, labelled with the configured or default button text; the card carries the configured or default header title and placeholder, the messages, the loading flag and the error |
| FloatingWidget.Widget.HandleToggle | components/widgets/floating-widget/floating-widget.tsx:28-36 | flips the expansion and calls the matching callback |
| FloatingWidget.Widget.ButtonClick | components/widgets/floating-widget/floating-widget.tsx:75-79 | the button expands the widget without calling a callback |
| FloatingWidget.Widget.KeyDown | components/widgets/floating-widget/floating-widget.tsx:63-71 | Escape on an expanded widget toggles it; every other key changes nothing |
| FloatingWidget.Widget.SendMessage | components/widgets/floating-widget/floating-widget.tsx:38-48 | appends the user message and reports it; the request carries the history from before the message |
| FloatingWidget.Widget.ReceiveReply | components/widgets/floating-widget/floating-widget.tsx:48-59 | on success appends and reports the AI reply; on failure the messages are unchanged |
| FloatingWidget.SendThenReply | components/widgets/floating-widget/floating-widget.tsx:38-60 | a successful exchange appends exactly the user message and then the reply, keeping earlier messages |
| FloatingWidgetCard.SendDisabled | components/widgets/floating-widget/floating-widget-card.tsx:95 | Send is disabled iff loading or the input is all whitespace |
| FloatingWidgetCard.Card.constructor | components/widgets/floating-widget/floating-widget-card.tsx:25 | empty input, nothing sent |
| FloatingWidgetCard.Card.Change | components/widgets/floating-widget/floating-widget-card.tsx:89 | the input becomes the typed value |
| FloatingWidgetCard.Card.Submit | components/widgets/floating-widget/floating-widget-card.tsx:41-47 | sends the trimmed input and clears it iff not loading and not blank; otherwise nothing changes |
| FloatingWidgetCard.Label | components/widgets/floating-widget/floating-widget-card.tsx:71 | You for user messages, AI for all others |
| FloatingWidgetCard.Transcript | components/widgets/floating-widget/floating-widget-card.tsx:69-79 | exactly the message lines in order, then the typing line iff loading, then as last line the alert iff the error is non-empty, showing that error; nothing else |
| FloatingWidgetCard.Lines | components/widgets/floating-widget/floating-widget-card.tsx:69-73 | one labelled line per message, in order |
| GistKinds.ParseType | components/widgets/onboarding-widget/types.ts:13-28 | accepts exactly person, product and place, and names what it parsed |
| GistKinds.ParseGoal | components/widgets/onboarding-widget/types.ts:13-28 | accepts exactly book, buy and waitlist |
| GistKinds.ParseAudience | components/widgets/onboarding-widget/types.ts:13-28 | accepts exactly prospects, fans and investors |
| GistKinds.ParseVibe | components/widgets/onboarding-widget/types.ts:13-28 | accepts exactly friendly, professional and bold |
| GistKinds.ParseHeroStyle | components/widgets/onboarding-widget/types.ts:13-28 | accepts exactly image, video and gradient |
| GistKinds.NamesRoundTrip | components/widgets/onboarding-widget/types.ts:13-28 | parsing each value's name gives back the value |
| Generator.Lower | lib/generator.ts:123 | lowers each character in place, length kept |
| Generator.DropRun | lib/generator.ts:124 | drops a leading run of non-alphanumerics and keeps every alphanumeric |
| Generator.CollapseRuns | lib/generator.ts:124 | only slug characters, no double hyphen, a leading hyphen iff the input starts with a separator, alphanumerics kept in order |
| Generator.CollapseRunsAppend | lib/generator.ts:124 | the replacement works piece by piece across a cut after an alphanumeric |
| Generator.CollapseRunOfSeparators | lib/generator.ts:124 | a non-empty run of separators before a word or at the end becomes exactly one hyphen |
| Generator.SlugJoinsWords | lib/generator.ts:121-126 | two alphanumeric words with separators between them give the words joined by one hyphen |
| Generator.TrimLeadingHyphens | lib/generator.ts:125 | removes exactly the leading hyphens |
| Generator.TrimTrailingHyphens | lib/generator.ts:125 | removes exactly the trailing hyphens |
| Generator.RemoveHyphensAppend | lib/generator.ts:124-125 | removing hyphens distributes over concatenation |
| Generator.GenerateSlug | lib/generator.ts:121-126 | the slug matches `^[a-z0-9-]*$` with no leading, trailing or doubled hyphen, and keeps exactly the lowered title's alphanumerics in order |
| Generator.SlugShapeKept | lib/generator.ts:122-125 | trimming hyphens from a collapsed string gives a clean slug |
| Generator.CleanSlugIsFixed | lib/generator.ts:121-126 | a clean slug is its own slug |
| Generator.GenerateSlugIdempotent | lib/generator.ts:121-126 | slugging a slug changes nothing |
| Generator.LowerKeepsSlug | lib/generator.ts:123 | lowering leaves slug characters alone |
| Generator.CollapseKeepsSlug | lib/generator.ts:124 | collapsing leaves a hyphen-run-free slug alone |
| Generator.CtaText | lib/generator.ts:103-114 | Book Now, Buy Now or Join Waitlist by goal |
| Generator.OrElse | lib/generator.ts:64-67 | `a || b` on an optional string: the value unless absent or empty |
| Generator.GenerateGistContent | lib/generator.ts:53-98 | the hero is the scraped title and description or their fallbacks, with the gradient style, the og image and the goal's call to action; three tiles with distinct ids 1, 2, 3 |
| GistTemplates.HeroHeadline | lib/gist-templates.ts:15-33 | the type's lead, the title, then the type-and-audience tail; the title sits right after the lead |
| GistTemplates.HeadlineDeterminesTitle | lib/gist-templates.ts:15-33 | for a fixed type and audience, different titles give different headlines |
| GistTemplates.HeroSubhead | lib/gist-templates.ts:41-64 | a non-empty subhead for each goal and vibe |
| GistTemplates.Ids | lib/gist-templates.ts:71-169 | the tile ids in order |
| GistTemplates.TileOf | lib/gist-templates.ts:75-166 | each tile carries its key's id |
| GistTemplates.TilesForType | lib/gist-templates.ts:71-169 | four tiles for a person and five otherwise, with distinct ids, ending with the faq tile |
| GistTemplates.TileKeysShape | lib/gist-templates.ts:75-166 | the tile key lists per type: their lengths, distinct ids and the final faq |
| GistTemplates.VibeStyling | lib/gist-templates.ts:177-203 | each vibe's primary colour is a `#RRGGBB` hex colour |
| GistTemplates.VibeStylingsDistinct | lib/gist-templates.ts:184-202 | different vibes have different colours, typography and tone |
| GistForm.SlugFor | hooks/use-gist-form.ts:41-45 | the slug derived from a title is clean, and empty for an empty title |
| GistForm.ReduceWritesOnlyOwnField | hooks/use-gist-form.ts:33-80 | every action leaves every field it does not write unchanged |
| GistForm.ReduceStoresPayload | hooks/use-gist-form.ts:33-80 | each action stores its payload; a title also sets the derived slug; reset restores the initial state; unknown actions change nothing |
| GistForm.FailingChecks | hooks/use-gist-form.ts:90-113 | the failing checks, in check order |
| GistForm.Messages | hooks/use-gist-form.ts:90-113 | one message per check, in order |
| GistForm.MessagesDistinct | hooks/use-gist-form.ts:93-112 | different checks have different messages |
| GistForm.EveryCheckListed | hooks/use-gist-form.ts:93-112 | the validator runs every check |
| GistForm.ValidateErrors | hooks/use-gist-form.ts:85-124 | a check's message is among the errors iff that check fails |
| GistForm.ValidateErrorsOrdered | hooks/use-gist-form.ts:85-124 | the errors come in the validator's check order |
| GistForm.ValidIffNoFailure | hooks/use-gist-form.ts:115 | the form is valid iff no check fails |
| GistForm.CanSubmitIsValid | hooks/use-gist-form.ts:116-121 | canSubmit equals isValid, since validity already requires every enum field |
| GistForm.TitleSlugPassesFormat | hooks/use-gist-form.ts:41-45 | after setting a title, the slug-format error never appears |
| GistForm.NonEmpty | hooks/use-gist-form.ts:149-152 | `s || undefined`: absent iff empty |
| GistForm.ToGistCreationData | hooks/use-gist-form.ts:138-154 | null iff the form cannot be submitted; otherwise every field copied, with empty optional fields omitted |
| GistForm.SubmittedDataWellFormed | hooks/use-gist-form.ts:138-154 | submitted data has a non-blank title, slug and URL, a parsable URL and a slug that matches the pattern |
| GistForm.PassesCheck | hooks/use-gist-form.ts:85-124 | a valid form passes every individual check |
| CreatePreviewValidation.QuoteEach | app/api/create-preview/validation.ts:11 | each enum option in single quotes, as zod lists it |
| CreatePreviewValidation.EnumIssues | app/api/create-preview/validation.ts:11 | no issue iff the value is a string among the options; at most one issue, at the key's path |
| CreatePreviewValidation.StringIssues | app/api/create-preview/validation.ts:12-31 | a string fails iff one of its refinements fails; a missing or non-string value gives one type issue |
| CreatePreviewValidation.AtKey | app/api/create-preview/validation.ts:12-31 | each message is placed at the key's path |
| CreatePreviewValidation.TitleChecks | app/api/create-preview/validation.ts:12-15 | a title passes iff it has 1 to 100 characters |
| CreatePreviewValidation.SlugChecks | app/api/create-preview/validation.ts:16-23 | a slug passes iff it has 1 to 100 characters and matches `^[a-z0-9-]+$` |
| CreatePreviewValidation.UserIdChecks | app/api/create-preview/validation.ts:31 | a user id passes iff non-empty |
| CreatePreviewValidation.NoChecks | app/api/create-preview/validation.ts:33 | cta_placement has no refinement |
| CreatePreviewValidation.KeyIssues | app/api/create-preview/validation.ts:10-34 | a key has no issue iff its rule holds, and all its issues are at its path |
| CreatePreviewValidation.IssuesFor | app/api/create-preview/validation.ts:10-34 | no issues iff every listed key's rule holds |
| CreatePreviewValidation.Issues | app/api/create-preview/validation.ts:10-34 | no issues iff the whole schema holds; every issue names a schema key |
| CreatePreviewValidation.RulesSpelledOut | app/api/create-preview/validation.ts:10-34 | an accepted body has every required field with its type, enum, length, pattern and URL rule, and well-typed optional fields |
| CreatePreviewValidation.RulesFromFields | app/api/create-preview/validation.ts:10-34 | the converse of RulesSpelledOut: a body whose every field is as the rules want keeps the schema |
| CreatePreviewValidation.OptionalString | app/api/create-preview/validation.ts:32-33 | an optional key is read iff present |
| CreatePreviewValidation.ValidateCreatePreviewRequest | app/api/create-preview/validation.ts:59-63 | a value that is not an object fails with the one issue `Expected object, received <type>` at the empty path; an object parses iff every rule holds, yielding its own values, and otherwise fails with the non-empty issue list |
| CreatePreviewValidation.Parsed | app/api/create-preview/validation.ts:39 | the parsed request holds exactly the body's values |
| CreatePreviewValidation.Render | app/api/create-preview/validation.ts:47-50 | `path: message`, ending with the message |
| CreatePreviewValidation.RenderEach | app/api/create-preview/validation.ts:47-50 | one rendered line per issue, in order |
| CreatePreviewValidation.FormatValidationError | app/api/create-preview/validation.ts:46-52 | empty for no issues; a single issue alone |
| CreatePreviewValidation.FormattedHoldsEveryIssue | app/api/create-preview/validation.ts:46-52 | the message is the rendered issues in order with one `, ` between each two: each issue at its offset, each separator after it, and the length of these pieces together |
| GistCreationWidget.OptionValues | components/widgets/gist-creation-widget/gist-creation-widget.tsx:37-143 | three options for each choice step and none for the two input steps |
| GistCreationWidget.OptionDispatchesOwnField | components/widgets/gist-creation-widget/gist-creation-widget.tsx:165-220 | an option click writes only its step's field, and stores the option |
| GistCreationWidget.FailureText | components/widgets/gist-creation-widget/gist-creation-widget.tsx:282-309 | the server's error, else the thrown message, else the default failure text |
| GistCreationWidget.BodyOf | components/widgets/gist-creation-widget/gist-creation-widget.tsx:276-279 | the posted body: every required field, the anonymous user id, and each optional field iff present |
| GistCreationWidget.OptionalEntries | components/widgets/gist-creation-widget/gist-creation-widget.tsx:276-279 | the optional fields, each present iff set |
| GistCreationWidget.RequiredEntries | components/widgets/gist-creation-widget/gist-creation-widget.tsx:276-279 | exactly the eight required keys with their values |
| GistCreationWidget.WithOptional | components/widgets/gist-creation-widget/gist-creation-widget.tsx:276-279 | adds the key iff a value is given and leaves every other key alone |
| GistCreationWidget.Wizard.constructor | components/widgets/gist-creation-widget/gist-creation-widget.tsx:151-157 | step 1, not submitting, no error, no success, initial form |
| GistCreationWidget.Wizard.Advance | components/widgets/gist-creation-widget/gist-creation-widget.tsx:222-227 | moves one step on and reports it, unless on the last step |
| GistCreationWidget.Wizard.OptionClick | components/widgets/gist-creation-widget/gist-creation-widget.tsx:161-228 | dispatches the option, clears the error, advances, completes on preview, and copies the link and shows success on private with a slug |
| GistCreationWidget.Wizard.InputChange | components/widgets/gist-creation-widget/gist-creation-widget.tsx:437-443 | typing sets the title or the URL on those steps; step, error, submission and success flags and the recorded callbacks are unchanged |
| GistCreationWidget.Wizard.ApiSubmit | components/widgets/gist-creation-widget/gist-creation-widget.tsx:260-280 | without submittable data sets the error; otherwise starts submitting and returns the form's submittable data, whose `BodyOf` is the posted body |
| GistCreationWidget.Wizard.InputSubmit | components/widgets/gist-creation-widget/gist-creation-widget.tsx:230-258 | the error is cleared; the title step advances and reports the new step; the URL step submits when the pre-dispatch form can submit, else advances and reports; success flag, completions and clipboard unchanged |
| GistCreationWidget.Wizard.CompleteSubmit | components/widgets/gist-creation-widget/gist-creation-widget.tsx:282-312 | success shows the animation and reports completion; failure records the failure text; submitting ends either way |
| GistCreationWidget.Wizard.SuccessTimerFires | components/widgets/gist-creation-widget/gist-creation-widget.tsx:294-301 | hides the success animation and advances, reported, from the step captured at submit time; everything else unchanged |
| GistCreationWidget.Wizard.Back | components/widgets/gist-creation-widget/gist-creation-widget.tsx:315-321 | one step back, reported, with the error cleared, except on step 1; form, flags and other callbacks unchanged |
| GistCreationWidget.SlugStaysDerived | hooks/use-gist-form.ts:41-45 | the slug stays derived from the title under every action but SET_SLUG, and resubmitting the title changes nothing |
| GistCreationWidget.PostedBodyPasses | components/widgets/gist-creation-widget/gist-creation-widget.tsx:260-280 | a body the wizard posts passes the create-preview schema when the lengths fit, and parses back to the form's values |
| GistCreationWidget.BodyKeepsRules | components/widgets/gist-creation-widget/gist-creation-widget.tsx:276-279 | a body built from well-formed data satisfies every schema rule |
| GistCreationWidget.ReadBackEnums | components/widgets/gist-creation-widget/gist-creation-widget.tsx:276-279 | parsing a posted body gives back the same enum values |
| Gists.NewGist | convex/gists.ts:111-125 | the inserted document carries the arguments, status preview and the creation time |
| Gists.ApplyPatch | convex/gists.ts:183-189 | every field the patch gives replaces the stored one and every other field stays; id, slug, owner and creation time never change |
| Gists.NoChangesIsIdentity | convex/gists.ts:183-189 | an empty patch changes nothing |
| Gists.PatchIdempotent | convex/gists.ts:183-189 | applying a patch twice is applying it once |
| Gists.FindSlug | convex/gists.ts:20-29 | none iff no document has the slug; otherwise the first document with it |
| Gists.IndexOfId | convex/gists.ts:181-185 | none iff no document has the id; otherwise that document's position |
| Gists.WithIndex | convex/gists.ts:35-61 | exactly the documents under the `by_user` or `by_status` key, in table order |
| Gists.Descending | convex/gists.ts:8-14 | the table reversed: the same documents, newest first |
| Gists.RemoveAtKeeps | convex/gists.ts:199-213 | removing a document keeps ids increasing and bounded and slugs unique |
| Gists.FindSlugAppend | convex/gists.ts:100-125 | after inserting a new slug, looking it up finds the inserted document |
| Gists.FindSlugUnique | convex/gists.ts:20-29 | with unique slugs, each document is found by its slug |
| Gists.GistTable.constructor | convex/schema.ts:13-83 | an empty table |
| Gists.GistTable.ListGists | convex/gists.ts:8-14 | every gist, newest first |
| Gists.GistTable.GetGistBySlug | convex/gists.ts:20-29 | the gist with the slug, or null iff none |
| Gists.GistTable.GetGistsByUser | convex/gists.ts:35-45 | exactly the user's gists, newest first |
| Gists.GistTable.GetGistsByStatus | convex/gists.ts:51-61 | exactly the gists with the status, newest first |
| Gists.GistTable.CreateGist | convex/gists.ts:67-129 | a taken slug fails with the error and changes nothing; otherwise inserts a preview gist under a fresh id, found afterwards by its slug |
| Gists.GistTable.UpdateGist | convex/gists.ts:135-193 | an unknown id fails with not found; otherwise patches that gist only, keeping every slug |
| Gists.GistTable.DeleteGist | convex/gists.ts:199-213 | an unknown id fails with not found; otherwise removes exactly that gist |
| OnboardingWidget.SuggestionCount | components/widgets/onboarding-widget/onboarding-widget.tsx:199-301 | phases 0 to 10 have suggestions and the others none |
| OnboardingWidget.CalculatedHeight | components/widgets/onboarding-widget/onboarding-widget.tsx:362-365 | 700 during the detour; always between 261 and the 810 cap |
| OnboardingWidget.HeightCapNeverBinds | components/widgets/onboarding-widget/onboarding-widget.tsx:362-365 | no phase asks for more than 720, so the cap never applies |
| OnboardingWidget.Onboarding.constructor | components/widgets/onboarding-widget/onboarding-widget.tsx:120-125 | phase 0, no detour, streaming |
| OnboardingWidget.Onboarding.SetPhase | components/widgets/onboarding-widget/onboarding-widget.tsx:190-192 | sets the phase; a changed phase streams again |
| OnboardingWidget.Onboarding.SuggestionClick | components/widgets/onboarding-widget/onboarding-widget.tsx:340-347 | phases 5 and 6 start the detour; others move one on, at most to 17 |
| OnboardingWidget.Onboarding.PricingSelect | components/widgets/onboarding-widget/onboarding-widget.tsx:349-356 | phase 6 starts the detour; others move one on, at most to 17, streaming again when the phase changed |
| OnboardingWidget.Onboarding.HeaderPrevious | components/widgets/onboarding-widget/onboarding-widget.tsx:422-440 | one phase back, never below 0, streaming again |
| OnboardingWidget.Onboarding.HeaderNext | components/widgets/onboarding-widget/onboarding-widget.tsx:422-440 | one phase on, never past 7, streaming again when the phase changed |
| OnboardingWidget.Onboarding.ChevronPrevious | components/widgets/onboarding-widget/onboarding-widget.tsx:585-699 | one phase back from 16 or 17 |
| OnboardingWidget.Onboarding.ChevronNext | components/widgets/onboarding-widget/onboarding-widget.tsx:604-713 | one phase on from 16 or 17, at most to 17 |
| OnboardingWidget.Onboarding.Jump | components/widgets/onboarding-widget/onboarding-widget.tsx:466-1035 | the direct buttons move exactly one phase on |
| OnboardingWidget.Onboarding.StreamingComplete | components/widgets/onboarding-widget/onboarding-widget.tsx:484 | the phase's description finished: streaming stops |
| OnboardingWidget.Onboarding.CheckmarkTimerFires | components/widgets/onboarding-widget/onboarding-widget.tsx:150-171 | after one second of the detour, the checkmark shows |
| OnboardingWidget.Onboarding.TransitionComplete | components/widgets/onboarding-widget/onboarding-widget.tsx:150-171 | after 1.8 seconds the detour ends and the phase moves one on |
| OnboardingWidget.Onboarding.AutoAdvanceFires | components/widgets/onboarding-widget/onboarding-widget.tsx:128-147 | phases 11 and 13 move on after three seconds |
| OnboardingWidget.Onboarding.PreviousLabel | components/widgets/onboarding-widget/onboarding-widget.tsx:430 | Previous is labelled with one of the first seven titles |
| OnboardingWidget.Onboarding.NextLabel | components/widgets/onboarding-widget/onboarding-widget.tsx:438 | Next is labelled with a title from the second on |
| OnboardingWidget.Onboarding.Height | components/widgets/onboarding-widget/onboarding-widget.tsx:362-365 | 700 during the detour, never above 810 |
| OnboardingWidget.NoSuggestionAtPaywall | components/widgets/onboarding-widget/onboarding-widget.tsx:886-887 | the paywall phase never finishes streaming, so its suggestions are never enabled |
| OnboardingWidget.ChooseThenValidate | components/widgets/onboarding-widget/onboarding-widget.tsx:150-171 | choosing a price at the paywall and letting the detour finish lands on phase 7 |
| GlassContainer.ExpandedHeightOr | components/ai-elements/glass_widget_container.tsx:162-172 | `expandedHeight \|\| 300` |
| GlassContainer.Container.IsExpanded | components/ai-elements/glass_widget_container.tsx:130-133 | the controlled value when given, else the internal state |
| GlassContainer.Container.constructor | components/ai-elements/glass_widget_container.tsx:115-133 | the props with their defaults, collapsed without the intermediate width |
| GlassContainer.Container.Toggle | components/ai-elements/glass_widget_container.tsx:135-154 | collapsed: first the intermediate width, then a request to expand; expanded: a request to collapse; a controlled container never changes its own state |
| GlassContainer.Container.Click | components/ai-elements/glass_widget_container.tsx:184 | toggles only while collapsed |
| GlassContainer.Container.SetControlled | components/ai-elements/glass_widget_container.tsx:130-133 | the parent's value becomes the expansion |
| GlassContainer.Container.AnimationComplete | components/ai-elements/glass_widget_container.tsx:213-224 | an expanded container hands its height to the content |
| GlassContainer.Container.AnimationStart | components/ai-elements/glass_widget_container.tsx:213-224 | a collapsing container returns to a fixed height |
| GlassContainer.Container.Width | components/ai-elements/glass_widget_container.tsx:156-160 | the expanded width, else 234 while intermediate, else the collapsed width |
| GlassContainer.Container.Height | components/ai-elements/glass_widget_container.tsx:162-172 | the collapsed height, the content's height once dynamic, else the expanded height or 300 |
| GlassContainer.AnimatedHeight | components/ai-elements/glass_widget_container.tsx:189 | auto once dynamic, else the container height |
| GlassContainer.TwoClicksExpand | components/ai-elements/glass_widget_container.tsx:135-184 | uncontrolled, two clicks pass through the intermediate width to the expanded width with one onExpandChange(true) |
| GlassContainer.ControlledClicksAsk | components/ai-elements/glass_widget_container.tsx:135-184 | controlled, two clicks only ask the parent to expand |
| SearchingAnimation.PrevIndex | components/animations/searching-animation.tsx:52 | the index before, wrapping to the last |
| SearchingAnimation.NextIndex | components/animations/searching-animation.tsx:44 | the index after, wrapping to 0 |
| SearchingAnimation.PrevNextInverse | components/animations/searching-animation.tsx:51-56 | stepping back and forward cancel |
| SearchingAnimation.VisibleItems | components/animations/searching-animation.tsx:51-56 | previous, current and next around the index; nothing for an empty list |
| SearchingAnimation.SingleItemEverywhere | components/animations/searching-animation.tsx:51-56 | one item is previous, current and next |
| SearchingAnimation.After | components/animations/searching-animation.tsx:43-45 | the index after k ticks stays in range |
| SearchingAnimation.AfterIsShift | components/animations/searching-animation.tsx:43-45 | up to a full round, k ticks move the index k places on, cyclically |
| SearchingAnimation.FullRound | components/animations/searching-animation.tsx:40-48 | n ticks return to the start, and the first n ticks show n different items |
| SearchingAnimation.Carousel.constructor | components/animations/searching-animation.tsx:28-37 | the default items and active flag when not given; index 0 |
| SearchingAnimation.Carousel.Tick | components/animations/searching-animation.tsx:44 | the index moves one on, wrapping |
| SearchingAnimation.Carousel.Shown | components/animations/searching-animation.tsx:51-56 | nothing iff there are no items; otherwise the current item is at the index |
| ReadinessGauge.Clamp | components/ai-elements/readiness-score-gauge.tsx:69 | within 0..100, the identity inside that range, 0 below it and 100 above it |
| ReadinessGauge.ClampIdempotent | components/ai-elements/readiness-score-gauge.tsx:69 | clamping twice is clamping once |
| ReadinessGauge.BucketOf | components/ai-elements/readiness-score-gauge.tsx:13-17 | Low iff below 33; High iff at least 66 |
| ReadinessGauge.BucketMonotone | components/ai-elements/readiness-score-gauge.tsx:13-17 | a higher score never lands in a lower bucket |
| ReadinessGauge.BucketOfClamp | components/ai-elements/readiness-score-gauge.tsx:69 | clamping never changes the bucket |
| ReadinessGauge.ScoreColor | components/ai-elements/readiness-score-gauge.tsx:13-17 | red, orange or green by bucket |
| ReadinessGauge.StatusLabel | components/ai-elements/readiness-score-gauge.tsx:104-108 | Low, Medium or High by bucket |
| ReadinessGauge.ColorAgreesWithStatus | components/ai-elements/readiness-score-gauge.tsx:101-108 | two scores share a colour iff they share a label |
| ReadinessGauge.Gauge.constructor | components/ai-elements/readiness-score-gauge.tsx:59-66 | `animate` defaults to true when not given; shows 0 when animating, else the unclamped target |
| ReadinessGauge.Gauge.ClampedScore | components/ai-elements/readiness-score-gauge.tsx:69 | within 0..100: the target score itself when in range, 0 below it and 100 above it |
| ReadinessGauge.Gauge.SettleWithoutAnimation | components/ai-elements/readiness-score-gauge.tsx:72-76 | without animation the shown score becomes the clamped one |
| ReadinessGauge.Gauge.Color | components/ai-elements/readiness-score-gauge.tsx:101 | red iff the shown score is below 33, green iff at least 66, orange otherwise |
| ReadinessGauge.Gauge.Status | components/ai-elements/readiness-score-gauge.tsx:104-108 | Low iff the shown score is below 33, High iff at least 66, Medium otherwise |
| ReadinessGauge.NoAnimationKeepsBucket | components/ai-elements/readiness-score-gauge.tsx:66-76 | without animation, the colour and label before and after the effect agree |

## Left out

- The DOM, React rendering, Shadow DOM and `ReactDOM.createRoot`. Elements, shadow hosts and roots are opaque ids in the manager's state, and a render is a recorded `(root, config)` pair. Styling, layout, motion animations and ARIA attributes are not modelled.
- The bootstrap script that reads `window.AskAnythingWidget`, and the widget build script, are not part of this model.
- Network calls. A fetch is an abstract outcome (a response with `ok`, a status and a JSON or unparsable body, or a rejection). The Convex client, the `create-preview` route handler and the scraper are not part of this model.
- Timers. `setTimeout`, `setInterval` and `requestAnimationFrame` become methods that the environment calls when they fire. Intervals, durations and clearing are not modelled beyond the precondition that a live timer fires.
- Clocks. `Date.now()` and `new Date()` are parameters.
- ReadinessGauge: the `animateScore` easing loop on `requestAnimationFrame` and the arc geometry are left out. They are floating point; scores are `real`, and NaN is not modelled.
- Generator.Lower: `toLowerCase` is modelled on ASCII letters only, because Unicode case mapping is out of scope.
- Strings are sequences of characters. JavaScript's UTF-16 code-unit lengths (zod's `min`/`max`) are not distinguished from character counts.
- The URL check. `new URL(…)` and zod's `.url()` are the predicate parameter `isUrl`, because URL parsing is out of scope.
- CreatePreviewValidation.EnumIssues: zod's exact default English messages are modelled for zod 3. The relative order of issues within one key follows the refinement order. Keys outside the schema are stripped without an issue, as zod does by default, and the model ignores them likewise; prototype keys and a key explicitly set to `undefined` are not modelled.
- CreatePreviewValidation.ValidateCreatePreviewRequest: the route handler in `app/api/create-preview/route.ts` does not call it, so the two are not connected.
- Generator.CtaText: the `default` branch ("Get Started") is unreachable for the three typed goals and is left out.
- Logging (`log.gen`, `log.api`, `console.error`) is left out.
- WidgetApi.Settle: a JSON body missing its `message` field is not modelled, and a JSON body is taken to carry a string message.
- Gists.GistTable.CreateGist: Convex document ids are a counter. An id prints as its decimal digits in the not-found message. The `v.id` validation of ids from other tables is not modelled.
- GistTemplates.HeroSubhead: states only that each subhead is non-empty. The function returns the exact nine-entry table, but the nine subheads are not proved pairwise distinct.
- OnboardingWidget.Onboarding.PreviousLabel: states only that the label is one of the first seven titles. The function itself picks the title before the phase.
- OnboardingWidget.Onboarding.NextLabel: states only that the label is a title from the second on. The function itself picks the title after the phase.
- SearchingAnimation.Carousel.Shown: states the current item. The previous and next items are stated by VisibleItems, which Shown returns.
- Props that change during a component's life (the carousel's items, the gauge's score, the floating widget's config after mount) are fixed at construction.
- The onboarding phases' text, images, voice and pricing content, and the gist wizard's headings and icons, are left out. Only the data that steers the state (suggestion counts, descriptions present, heights) is modelled.
- Four behaviours of the code are kept as written:
  - `init` validates neither `containerId` nor `apiKey`;
  - `customStyles` are not filtered to known variables;
  - a `custom` or unknown theme has no preset base;
  - an empty `apiKey` is accepted.
- JsObject.KeysSpread: the key order is insertion order. JavaScript lists keys that are array indices (such as "1") first, in numeric order, so a `customStyles` key of that form is declared first by `generateThemeStyles`, not last as here.
- WidgetManager.PositionStyles: a position name inherited from `Object.prototype` (such as "toString") reads an inherited, truthy value in JavaScript and so does not fall back to bottom-right; the model treats every name that is not an own key of the table as unknown.
- WidgetManager.Manager.UpdateConfig: a patch property present but set to `undefined` clears that field in JavaScript's spread; the patch's `Option` fields cannot express it, so a patch here can only leave a field alone or give it a value.
- Form submission by pressing Enter on a disabled Submit button, and other browser-level form behaviour, are not modelled.
