# Ransack::Translate in Dafny

A model of `Ransack::Translate` (`lib/ransack/translate.rb`). This is the
part of Ransack that turns a search-field name such as `name_or_email_cont`
into a human-readable label. It does this by handing ordered fallback lists
of I18n keys to `I18n.translate`.

The model has five modules:

- `Wrappers` holds `Option` and `Result`.
- `Text` writes out the regular-expression steps the code uses:
  - the anchored `sub` on a prefix or a suffix;
  - `match(/_and_/)`;
  - Ruby's `split(/_and_|_or_/)`, which drops trailing empty pieces;
  - `join`, `blank?` and `tr`.
- `I18n` is an abstract I18n backend:
  - a dictionary from full keys to templates;
  - a lookup where a Symbol default is looked up as a key and a String default is returned as it is;
  - `%{name}` interpolation;
  - the "translation missing" text.
- `Models` holds the ActiveRecord and search-context facts the code reads: `model_name`, `i18n_scope`, `ancestors`, `association_path` and `traverse`.
- `Translate` has the operations themselves:
  - `word`, `predicate` and `i18n_key` are functions.
  - `attribute`, `association` and `attribute_name` are methods. They build their `defaults` list step by step, shift its head off as the primary key and, for `attribute` and `association`, change the caller's options hash, modelled as the class `Translate.Options`.
  - Each method is proved equal to a specification function (`AttributeLabel`, `AssociationLabel`, `AttributeNameLabel`).
- `TranslateProperties` proves what the labels are in terms of those specification functions.

Things that lie outside the file become fields of `Translate.Env`:

- the loaded translations;
- whether ActiveRecord is version 3.0;
- `String#humanize`;
- `Predicate.detect_from_string`.

## Model

| member | source | states |
|---|---|---|
| Text.StripSuffix | lib/ransack/translate.rb:26 | removes the suffix exactly once, and only when it ends the string; otherwise the string is unchanged |
| Text.StripPrefix | lib/ransack/translate.rb:72 | removes the prefix exactly once, and only when it starts the string; otherwise the string is unchanged |
| Text.ContainsIff | lib/ransack/translate.rb:28 | the left-to-right `match` test holds exactly when the pattern occurs at some index |
| Text.LeadingSeparator | lib/ransack/translate.rb:27 | the separator matched at the start is `_and_` or `_or_` and is a prefix; with none, neither is a prefix |
| Text.Pieces | lib/ransack/translate.rb:27 | the split always has a first piece, and that piece is a prefix of the string |
| Text.DropTrailingEmpty | lib/ransack/translate.rb:27 | drops only empty strings, only at the end, and leaves a non-empty last element |
| Text.PiecesRoundTrip | lib/ransack/translate.rb:27 | there is one more piece than separators, and putting the separators back between the pieces rebuilds the string |
| Text.Split | lib/ransack/translate.rb:27 | the tokens are the pieces with the trailing empty ones dropped: an empty name has no tokens, and the last token is never empty |
| Text.PiecesHeadBeforeSeparators | lib/ransack/translate.rb:27 | leftmost matching: no separator occurs anywhere inside the first piece |
| Text.PiecesWhole | lib/ransack/translate.rb:27 | when the first piece is the whole string, it is the only piece |
| Text.PiecesAfterFirstSeparator | lib/ransack/translate.rb:27 | leftmost matching: a shorter first piece ends where a separator occurs, and the other pieces are the split of what follows the separator matched there |
| Text.PiecesHaveNoSeparator | lib/ransack/translate.rb:27 | no piece contains `_and_` or `_or_` |
| Text.SplitHasNoSeparator | lib/ransack/translate.rb:27 | no attribute token contains `_and_` or `_or_` |
| Text.SplitWithoutSeparator | lib/ransack/translate.rb:27 | a string without separators splits into itself, or into no tokens when it is empty |
| Text.Join | lib/ransack/translate.rb:38-40 | `Array#join`: the elements with the separator between each two; what it gives is stated by `JoinRejoin`, `JoinSnoc` and `JoinEnds` |
| Text.JoinRejoin | lib/ransack/translate.rb:38-40 | for any non-empty list, the join is the elements with exactly one separator between each two neighbours: every element is kept, in order |
| Text.JoinSnoc | lib/ransack/translate.rb:38-40 | joining one more element appends the separator and that element to the join of the rest |
| Text.JoinEnds | lib/ransack/translate.rb:38-40 | no tokens join to the empty string and one token to itself; otherwise the first token followed by the separator starts the result and the last token ends it |
| Text.IsBlank | lib/ransack/translate.rb:59 | `blank?`: the empty string or whitespace only |
| Text.Tr | lib/ransack/translate.rb:110 | `tr` keeps the length and replaces each `from` character by `to`, leaving the other characters alone |
| I18n.Lookup | lib/ransack/translate.rb:50-51 | the lookup gives nothing exactly when no entry resolves; what it gives is the value of an entry that resolves |
| I18n.IndexOf | lib/ransack/translate.rb:43 | finds the first occurrence of a character, or reports that there is none |
| I18n.Translate | lib/ransack/translate.rb:51 | `I18n.translate`: the key first, then each default; the template found is interpolated, and the missing-translation text comes back when nothing resolves |
| I18n.TranslateKeyFirst | lib/ransack/translate.rb:51 | a translated key gives its own template interpolated; an untranslated one gives the first default that resolves, or the missing-translation text |
| I18n.Interpolate | lib/ransack/translate.rb:51 | `%{name}` substitution from the interpolation values; what it gives is stated by the Interpolate lemmas below |
| I18n.LookupFirstMatch | lib/ransack/translate.rb:29-31 | the first entry that resolves decides the result, and later entries are not consulted |
| I18n.LookupAppend | lib/ransack/translate.rb:49 | an entry appended to a list only counts when nothing in the list resolves |
| I18n.LookupStopsAtLiteral | lib/ransack/translate.rb:42-49 | a String default always resolves, so whatever comes after it is never reached |
| I18n.InterpolateNoValues | lib/ransack/translate.rb:8 | with no interpolation values, a template comes back unchanged |
| I18n.InterpolatePlaceholder | lib/ransack/translate.rb:51 | a placeholder whose name has a value is replaced by that value |
| I18n.InterpolatePlain | lib/ransack/translate.rb:43 | a character other than `%` is copied |
| I18n.InterpolateOne | lib/ransack/translate.rb:46 | `%{a}` becomes the value of `a` |
| I18n.InterpolateTwo | lib/ransack/translate.rb:43 | `%{a} %{b}` becomes the value of `a`, a space, then the value of `b` |
| Models.ModelNames | lib/ransack/translate.rb:22-24 | never longer than the ancestor chain; the first ancestor's name comes first when it has one; empty when no ancestor has one; every name, in order, when all have one |
| Models.ModelNamesAppend | lib/ransack/translate.rb:22-24 | selecting over two joined chains gives the selection of the first followed by the selection of the second, so order is kept |
| Models.ModelNamesSingle | lib/ransack/translate.rb:22-24 | one ancestor contributes its model name when it responds to `model_name`, and nothing otherwise |
| Translate.Options.constructor | lib/ransack/translate.rb:15 | an options hash holding exactly the given context, include-associations flag, count and default |
| Translate.I18nKey | lib/ransack/translate.rb:108-114 | the model's `i18n_key` as it is; under ActiveRecord 3.0, the same length, with every '.' turned into '/' and every other character kept, so no '.' is left |
| Translate.Word | lib/ransack/translate.rb:7-9 | `word(key)`: `ransack.<key>` with the key itself as the default; its value is stated by `WordResolution` |
| Translate.Predicate | lib/ransack/translate.rb:11-13 | `predicate(key)`: `ransack.predicates.<key>` with the key itself as the default; its value is stated by `PredicateResolution` |
| Translate.AttrName | lib/ransack/translate.rb:72 | `<path>_` is removed when it starts the token, and only then; otherwise the token is unchanged |
| Translate.AssociationLabel | lib/ransack/translate.rb:59-64 | the label of `association`; its value is stated by `AssociationResolution` |
| Translate.AttributeNameLabel | lib/ransack/translate.rb:74-105 | the label of `attribute_name`; its value is stated by `AttributeNameResolution` |
| Translate.AttributeLabel | lib/ransack/translate.rb:29-51 | the label of `attribute`; its value is stated by `AttributeMostDerivedAncestorWins` and `AttributeFallsBackToTemplate` |
| Translate.AttributesString | lib/ransack/translate.rb:26 | `_<predicate>` is removed when it ends the name, and only then; with no predicate, one trailing '_' is removed |
| Translate.Combinator | lib/ransack/translate.rb:28 | the combinator is `and` or `or`, and it is `and` exactly when `_and_` occurs in the name |
| Translate.Association | lib/ransack/translate.rb:54-65 | with no context, raises ArgumentError with the source's message; otherwise gives `AssociationLabel`; either way `:context` is removed from the options and nothing else changes |
| Translate.AttributeName | lib/ransack/translate.rb:69-106 | gives the label `AttributeNameLabel` specifies: the inner `attr_fallback_name` chain, then the outer chain with the association template or the plain one |
| Translate.AncestorKeys | lib/ransack/translate.rb:29-31 | one `ransack.attributes.<i18n_key>.<name>` key per model-name ancestor, in ancestor order |
| Translate.AncestorDefaults | lib/ransack/translate.rb:29-31 | the loop builds exactly the ancestor keys |
| Translate.AttributeFallbacks | lib/ransack/translate.rb:29-49 | the fallback list of `attribute` is never empty |
| Translate.AttributeNameLabels | lib/ransack/translate.rb:33-35 | one label per token, each being that token's `attribute_name` label |
| Translate.TranslatedNames | lib/ransack/translate.rb:33-35 | the loop gives exactly the per-token labels, in token order |
| Translate.AttributeDefaults | lib/ransack/translate.rb:20-49 | builds the fallback list (ancestor keys, template, caller's default) and the interpolation values (joined token labels, and the predicate when there is one) |
| Translate.Attribute | lib/ransack/translate.rb:15-52 | with no context, raises ArgumentError with the source's message and leaves count and default alone; otherwise gives `AttributeLabel`; `:count` defaults to 1; `:default` becomes the shifted fallback list; `:context` is always removed |
| TranslateProperties.Candidates | lib/ransack/translate.rb:51 | when the head of the list is a key, the entries tried are the list itself |
| TranslateProperties.WordResolution | lib/ransack/translate.rb:7-9 | `word(k)` is the translation of `ransack.<k>`, and exactly `k` when there is none |
| TranslateProperties.PredicateResolution | lib/ransack/translate.rb:11-13 | `predicate(k)` is the translation of `ransack.predicates.<k>`, and exactly `k` when there is none |
| TranslateProperties.AssociationResolution | lib/ransack/translate.rb:59-64 | a blank key tries `<scope>.models.<root key>`, any other key tries `ransack.associations.<root key>.<key>`; the label is that translation, else the traversed class's human name, so it always resolves |
| TranslateProperties.AttrNameWithoutPath | lib/ransack/translate.rb:72 | with a blank association path, one leading '_' is stripped and nothing else changes |
| TranslateProperties.AttrFallbackResolution | lib/ransack/translate.rb:74-92 | the inner chain uses the associated class when there is a path and the root class otherwise, and its four entries come in the source's order; it always resolves; it is the humanised name when none of the three keys is translated |
| TranslateProperties.NamesHaveNoBrace | lib/ransack/translate.rb:43 | no interpolation name contains '}', so each placeholder ends where its name ends |
| TranslateProperties.KeyThenLiteral | lib/ransack/translate.rb:104-105 | a key followed by a literal always resolves, to the key's translation if it has one and the literal otherwise |
| TranslateProperties.AttributeNameFallbackShape | lib/ransack/translate.rb:93-103 | the outer chain is the root key then a template; the template names `%{association_name}`, and the association label is among the values, exactly when associations are included and the token has an associated class |
| TranslateProperties.AttributeNameResolution | lib/ransack/translate.rb:93-105 | the token's label is the root key's translation when there is one; otherwise it is the association label and a space (when included), then `attr_fallback_name` |
| TranslateProperties.AttributeNameWithoutTranslations | lib/ransack/translate.rb:69-106 | with no translations loaded, a token's label is the humanised attribute name, with the associated model's human name and a space in front when associations are included |
| TranslateProperties.AttributeFallbackOrder | lib/ransack/translate.rb:29-49 | the fallback list is the ancestor keys, then the template (with `%{predicate}` exactly when a predicate was detected), then the caller's default |
| TranslateProperties.AttributeMostDerivedAncestorWins | lib/ransack/translate.rb:29-31 | the first ancestor key with a translation gives the label |
| TranslateProperties.AttributeFallsBackToTemplate | lib/ransack/translate.rb:37-47 | when no ancestor key is translated, the label is the joined token phrase, followed by a space and the translated predicate when there is one |
| TranslateProperties.AttributeTemplateWins | lib/ransack/translate.rb:29-51 | when no ancestor key is translated, the label is the template interpolated with `attribute`'s values |
| TranslateProperties.AttributeTemplateFilled | lib/ransack/translate.rb:37-47 | the template filled in is the joined token phrase, followed by a space and the translated predicate when there is one |
| TranslateProperties.AttributeResolves | lib/ransack/translate.rb:42-47 | with at least one model-name ancestor, `attribute` always finds a template |
| TranslateProperties.AttributeWithoutModelAncestors | lib/ransack/translate.rb:50-51 | with no model-name ancestor, the template itself becomes the primary key, and an untranslated one gives the missing-translation text |
| TranslateProperties.CallerDefaultIgnored | lib/ransack/translate.rb:49 | as written, the caller's `:default` never changes the label of a class that has a model-name ancestor |
| TranslateProperties.IntendedAttributeFallbacks | lib/ransack/translate.rb:29-49 | the corrected fallback list (caller's default before the template) is never empty |
| TranslateProperties.IntendedAncestorStillWins | lib/ransack/translate.rb:29-31 | with the corrected order, the first translated ancestor key still gives the label, whatever the caller's default |
| TranslateProperties.IntendedCallerDefaultUsed | lib/ransack/translate.rb:49 | with the default before the template, a default that resolves is used when no ancestor key is translated, and without a default the label is unchanged |
| TranslateProperties.SingleTokenIgnoresCombinator | lib/ransack/translate.rb:38-40 | with one token, the phrase is that token's label and the combinator does not appear |
| TranslateProperties.AttributeWithoutTranslations | lib/ransack/translate.rb:15-52 | with no translations loaded, the label is the tokens' labels joined by " and " or " or ", followed by a space and the predicate's name when one was detected |

## Left out

- The `I18n.load_path` registration of the bundled locale files (line 3). The translations are a parameter, `Env.translations`.
- `Predicate.detect_from_string`, `String#humanize`, `association_path` and `traverse`. These are code outside this file; they are given functions, so nothing is proved about how they compute.
- Pluralisation. `:count` is recorded in the options, but a translation that is a plural hash, and `%{count}` in a template, are not modelled.
- Interpolation edge cases:
  - `%%` escapes and `%<name>` formats are not modelled.
  - A placeholder without a value is copied as it is. Real I18n raises `MissingInterpolationArgument` there; no label built by this file has such a placeholder unless a loaded translation does.
- I18n key handling:
  - Scope-relative resolution of the `.attributes.<attr>` key is not modelled; it is looked up as the literal key.
  - The symbol-to-key normalisation of dotted keys is not modelled.
  - The locale shown in the missing-translation text is not modelled.
- Regular expressions:
  - `^` and `$` are taken as the start and end of the whole string; their meaning at line breaks is not modelled.
  - A predicate or association path holding regular-expression metacharacters is not modelled: the pattern is treated as a literal.
- Translate.Attribute: a list passed by the caller as `:default` is excluded by the `requires`. Only a single default entry, or none, is modelled.
- Translate.Attribute: a caller's `:default` that is present but `nil` or `false` is not modelled. Line 49 skips it, and `reverse_merge!` (line 50) then keeps the falsy value, so no fallback list reaches `I18n.translate`. `DefaultOption.NoDefault` stands for an absent key only.
- Text.IsBlank: ActiveSupport's `blank?` and `present?` (lines 59, 71) also count Unicode spaces as blank. The model knows only the six ASCII whitespace characters: space, tab, line feed, carriage return, form feed and vertical tab.
- I18n.Translate: I18n resolves a Symbol default through a nested `translate`, which interpolates it, and then the outer call interpolates the result again. The model interpolates once, so a translated default whose value contains a placeholder is not modelled faithfully for that second pass.
- Extra keys in the caller's options hash, which `attribute` passes through to `I18n.translate`, are not modelled.
- Behaviours of the code a caller may not expect. The model keeps each one as the code has it:
  - A blank association path still strips one leading `_` from the token (line 72).
  - The split can give empty tokens, for instance from a leading `_and_`, and no tokens at all for an empty name. Each token is translated like any other.
  - For a blank key, `association` still appends the traversed class's human name after the model key (line 62).
  - The caller's `:default` comes after the template (line 49). See "## Findings".

## Findings

| source | as written | input that shows it | evidently intended | confidence | as-written member | corrected member |
|---|---|---|---|---|---|---|
| lib/ransack/translate.rb:42-49 | the caller's `:default` is appended after the literal template `"%{attributes}"`, and a String default always resolves | `attribute("name_eq", :context => c, :default => :"my.label")` with `my.label` translated and no `ransack.attributes.*.name_eq` key: the label is the template, and `my.label` is never consulted | the caller's default takes effect when no ancestor key is translated: line 49 removes it from the options and appends it, which would be pointless if it could never be reached | high, not executed | TranslateProperties.CallerDefaultIgnored | TranslateProperties.IntendedCallerDefaultUsed |
