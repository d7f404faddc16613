/**
 * `Ransack::Translate`: human-readable labels for search fields such as
 * `name_or_email_cont`, resolved through ordered fallback lists of I18n keys.
 *
 * The pure helpers (`word`, `predicate`, `i18n_key`, the parsing of a
 * search-field name) are functions. `attribute`, `attribute_name` and
 * `association` build their `defaults` list step by step, shift its head off
 * as the primary key and change the caller's options hash; they are methods,
 * each proved equal to a specification function (`AttributeLabel`,
 * `AttributeNameLabel`, `AssociationLabel`) about which the lemmas in
 * `TranslateProperties` speak.
 */
module Translate {
  import opened Wrappers
  import opened Text
  import opened I18n
  import opened Models

  /**
   * What the code reaches outside itself for: the loaded translations, whether
   * ActiveRecord is version 3.0, `String#humanize` and
   * `Predicate.detect_from_string`.
   */
  datatype Env = Env(
    translations: Store,
    activeRecord30: bool,
    humanize: string -> string,
    detectPredicate: string -> Option<string>)

  datatype Error = ArgumentError(message: string)

  const ATTRIBUTE_CONTEXT_REQUIRED: string := "A context is required to translate attributes"
  const ASSOCIATION_CONTEXT_REQUIRED: string := "A context is required to translate associations"

  // Interpolation names and the literal templates that use them.
  const ATTRIBUTES: string := "attributes"
  const PREDICATE: string := "predicate"
  const ATTR_FALLBACK_NAME: string := "attr_fallback_name"
  const ASSOCIATION_NAME: string := "association_name"
  /** `"%{attributes}"` */
  const ATTRIBUTES_TEMPLATE: string := Placeholder(ATTRIBUTES)
  /** `"%{attributes} %{predicate}"` */
  const ATTRIBUTES_PREDICATE_TEMPLATE: string := Placeholder(ATTRIBUTES) + " " + Placeholder(PREDICATE)
  /** `"%{attr_fallback_name}"` */
  const ATTR_FALLBACK_TEMPLATE: string := Placeholder(ATTR_FALLBACK_NAME)
  /** `"%{association_name} %{attr_fallback_name}"` */
  const ASSOCIATION_ATTR_TEMPLATE: string := Placeholder(ASSOCIATION_NAME) + " " + Placeholder(ATTR_FALLBACK_NAME)

  /** The value under `:default` in an options hash. */
  datatype DefaultOption = NoDefault | Given(entry: Entry) | Fallbacks(entries: seq<Entry>)

  /** The caller's options hash; `attribute` and `association` change it in place. */
  class Options {
    var context: Option<Context>
    var includeAssociations: bool
    var count: Option<int>
    var default: DefaultOption

    constructor (context: Option<Context>, includeAssociations: bool, count: Option<int>, default: DefaultOption)
      ensures this.context == context && this.includeAssociations == includeAssociations
      ensures this.count == count && this.default == default
    {
      this.context := context;
      this.includeAssociations := includeAssociations;
      this.count := count;
      this.default := default;
    }
  }

  /** A single caller-supplied `:default`, if there is one. */
  function CallerDefault(d: DefaultOption): Option<Entry> {
    if d.Given? then Some(d.entry) else None
  }

  /** Translates the first entry of `chain`, falling back to the others in order. */
  function TranslateChain(store: Store, chain: seq<Entry>, values: map<string, string>): string
    requires |chain| > 0
  {
    Translate(store, chain[0].KeyName(), chain[1..], values)
  }

  // ---------------------------------------------------------------- keys

  function WordKey(key: string): string { "ransack." + key }

  function PredicateKey(key: string): string { "ransack.predicates." + key }

  /** `ransack.attributes.<model key>.<name>`. */
  function AttributeKey(modelKey: string, name: string): string {
    "ransack.attributes." + modelKey + "." + name
  }

  /** `<i18n scope>.attributes.<model key>.<name>`. */
  function ScopedAttributeKey(scope: string, modelKey: string, name: string): string {
    scope + ".attributes." + modelKey + "." + name
  }

  /** `.attributes.<name>`, relative to the I18n scope of the call. */
  function RelativeAttributeKey(name: string): string {
    ".attributes." + name
  }

  /** `<i18n scope>.models.<model key>`. */
  function ModelKey(scope: string, modelKey: string): string {
    scope + ".models." + modelKey
  }

  /** `ransack.associations.<model key>.<path>`. */
  function AssociationKey(modelKey: string, path: string): string {
    "ransack.associations." + modelKey + "." + path
  }

  // ------------------------------------------------- word, predicate, i18n_key

  /** `Translate.word(key)`: `ransack.<key>`, else the key itself. */
  function Word(env: Env, key: string): string {
    Translate(env.translations, WordKey(key), [Literal(key)], map[])
  }

  /** `Translate.predicate(key)`: `ransack.predicates.<key>`, else the key itself. */
  function Predicate(env: Env, key: string): string {
    Translate(env.translations, PredicateKey(key), [Literal(key)], map[])
  }

  /**
   * `i18n_key(klass)`: the model's `i18n_key`, with every '.' turned into
   * '/' when (and only when) ActiveRecord is version 3.0.
   */
  function I18nKey(name: ModelName, activeRecord30: bool): (r: string)
    ensures !activeRecord30 ==> r == name.i18nKey
    ensures activeRecord30 ==> |r| == |name.i18nKey| && '.' !in r
    ensures activeRecord30 ==> forall i | 0 <= i < |r| :: r[i] == (if name.i18nKey[i] == '.' then '/' else name.i18nKey[i])
  {
    if activeRecord30 then
      var r := Tr(name.i18nKey, '.', '/');
      assert forall i | 0 <= i < |r| :: r[i] != '.';
      r
    else name.i18nKey
  }

  // ---------------------------------------------------- parsing a field name

  /**
   * The field name without its trailing '_' and detected predicate name.
   * With no predicate only one trailing '_' is removed.
   */
  function AttributesString(name: string, detected: Option<string>): (r: string)
    ensures var suffix := "_" + detected.GetOr("");
            (IsSuffix(suffix, name) ==> r + suffix == name) && (!IsSuffix(suffix, name) ==> r == name)
  {
    StripSuffix(name, "_" + detected.GetOr(""))
  }

  /** "and" when the attribute part contains "_and_", otherwise "or". */
  function Combinator(attributesStr: string): (r: string)
    ensures r == "and" || r == "or"
    ensures r == "and" <==> exists i: nat :: OccursAt(attributesStr, AND_SEPARATOR, i)
  {
    ContainsIff(attributesStr, AND_SEPARATOR);
    if Contains(attributesStr, AND_SEPARATOR) then "and" else "or"
  }

  // ---------------------------------------------------------- association

  /** The `defaults` list `association(key)` builds, before the shift. */
  function AssociationFallbacks(env: Env, context: Context, key: string): seq<Entry> {
    var rootKey := I18nKey(context.klass.modelName, env.activeRecord30);
    [ if IsBlank(key) then Key(ModelKey(context.klass.i18nScope, rootKey))
      else Key(AssociationKey(rootKey, key)),
      Literal(context.traverse(key).modelName.human) ]
  }

  /** The label `association(key, :context => context)` returns. */
  function AssociationLabel(env: Env, context: Context, key: string): string {
    TranslateChain(env.translations, AssociationFallbacks(env, context, key), map[])
  }

  /**
   * `Translate.association(key, options)`: raises when the options carry no
   * context; otherwise looks up the association key (or, for a blank key,
   * the root model's name) and falls back to the human name of the class
   * the key traverses to. The caller's hash loses its `:context`.
   */
  method Association(env: Env, key: string, options: Options) returns (r: Result<string, Error>)
    modifies options
    ensures options.context.None?
    ensures options.includeAssociations == old(options.includeAssociations)
    ensures options.count == old(options.count) && options.default == old(options.default)
    ensures old(options.context).None? ==> r == Failure(ArgumentError(ASSOCIATION_CONTEXT_REQUIRED))
    ensures old(options.context).Some? ==> r == Success(AssociationLabel(env, old(options.context).value, key))
  {
    var context := options.context;
    options.context := None;
    if context.None? {
      return Failure(ArgumentError(ASSOCIATION_CONTEXT_REQUIRED));
    }
    var ctx := context.value;
    var rootKey := I18nKey(ctx.klass.modelName, env.activeRecord30);
    var defaults: seq<Entry>;
    if IsBlank(key) {
      defaults := [Key(ModelKey(ctx.klass.i18nScope, rootKey))];
    } else {
      defaults := [Key(AssociationKey(rootKey, key))];
    }
    defaults := defaults + [Literal(ctx.traverse(key).modelName.human)];
    var primary := defaults[0];
    defaults := defaults[1..];
    r := Success(Translate(env.translations, primary.KeyName(), defaults, map[]));
  }

  // -------------------------------------------------------- attribute_name

  /** The class an association path leads to, when the path is not blank. */
  function AssociatedClass(context: Context, path: string): Option<ModelClass> {
    if IsBlank(path) then None else Some(context.traverse(path))
  }

  /** The attribute name with the association path and its '_' removed from the front. */
  function AttrName(name: string, path: string): (r: string)
    ensures IsPrefix(path + "_", name) ==> path + "_" + r == name
    ensures !IsPrefix(path + "_", name) ==> r == name
  {
    StripPrefix(name, path + "_")
  }

  /** The fallback list for `attr_fallback_name`: three keys, then the humanised name. */
  function AttrFallbacks(env: Env, context: Context, name: string): seq<Entry> {
    var path := context.associationPath(name);
    var target := AssociatedClass(context, path).GetOr(context.klass);
    var targetKey := I18nKey(target.modelName, env.activeRecord30);
    var attr := AttrName(name, path);
    [ Key(AttributeKey(targetKey, attr)),
      Key(ScopedAttributeKey(target.i18nScope, targetKey, attr)),
      Key(RelativeAttributeKey(attr)),
      Literal(env.humanize(attr)) ]
  }

  /** `interpolations[:attr_fallback_name]`. */
  function AttrFallbackName(env: Env, context: Context, name: string): string {
    TranslateChain(env.translations, AttrFallbacks(env, context, name), map[])
  }

  /** Whether the association's name is put in front of the attribute's. */
  predicate WithAssociationName(context: Context, name: string, includeAssociations: bool) {
    includeAssociations && AssociatedClass(context, context.associationPath(name)).Some?
  }

  /** The outer `defaults` list of `attribute_name`, before the shift. */
  function AttributeNameFallbacks(env: Env, context: Context, name: string, includeAssociations: bool): seq<Entry> {
    [ Key(AttributeKey(I18nKey(context.klass.modelName, env.activeRecord30), name)),
      Literal(if WithAssociationName(context, name, includeAssociations) then ASSOCIATION_ATTR_TEMPLATE
              else ATTR_FALLBACK_TEMPLATE) ]
  }

  /** The interpolation values of `attribute_name`. */
  function AttributeNameValues(env: Env, context: Context, name: string, includeAssociations: bool): map<string, string> {
    var values := map[ATTR_FALLBACK_NAME := AttrFallbackName(env, context, name)];
    if WithAssociationName(context, name, includeAssociations) then
      values[ASSOCIATION_NAME := AssociationLabel(env, context, context.associationPath(name))]
    else values
  }

  /** The label `attribute_name(context, name, include_associations)` returns. */
  function AttributeNameLabel(env: Env, context: Context, name: string, includeAssociations: bool): string {
    TranslateChain(env.translations,
                   AttributeNameFallbacks(env, context, name, includeAssociations),
                   AttributeNameValues(env, context, name, includeAssociations))
  }

  /**
   * `attribute_name(context, name, include_associations)`: the label of one
   * attribute token, possibly behind an association path.
   */
  method AttributeName(env: Env, context: Context, name: string, includeAssociations: bool) returns (r: string)
    ensures r == AttributeNameLabel(env, context, name, includeAssociations)
  {
    var assocPath := context.associationPath(name);
    var associatedClass: Option<ModelClass> := None;
    if !IsBlank(assocPath) {
      associatedClass := Some(context.traverse(assocPath));
    }
    var attrName := StripPrefix(name, assocPath + "_");
    var interpolations: map<string, string> := map[];
    var target := if associatedClass.Some? then associatedClass.value else context.klass;
    var targetKey := I18nKey(target.modelName, env.activeRecord30);
    interpolations := interpolations[ATTR_FALLBACK_NAME := Translate(
      env.translations,
      AttributeKey(targetKey, attrName),
      [ Key(ScopedAttributeKey(target.i18nScope, targetKey, attrName)),
        Key(RelativeAttributeKey(attrName)),
        Literal(env.humanize(attrName)) ],
      map[])];
    var defaults := [Key(AttributeKey(I18nKey(context.klass.modelName, env.activeRecord30), name))];
    if includeAssociations && associatedClass.Some? {
      defaults := defaults + [Literal(ASSOCIATION_ATTR_TEMPLATE)];
      var associationOptions := new Options(Some(context), false, None, NoDefault);
      var associationName := Association(env, assocPath, associationOptions);
      interpolations := interpolations[ASSOCIATION_NAME := associationName.value];
    } else {
      defaults := defaults + [Literal(ATTR_FALLBACK_TEMPLATE)];
    }
    var primary := defaults[0];
    defaults := defaults[1..];
    assert AttrFallbacks(env, context, name)[1..] == [
      Key(ScopedAttributeKey(target.i18nScope, targetKey, attrName)),
      Key(RelativeAttributeKey(attrName)),
      Literal(env.humanize(attrName)) ];
    r := Translate(env.translations, primary.KeyName(), defaults, interpolations);
  }

  // ------------------------------------------------------------- attribute

  /** One `ransack.attributes.<i18n_key(ancestor)>.<name>` key per model-name ancestor. */
  function AncestorKeys(env: Env, models: seq<ModelName>, name: string): (r: seq<Entry>)
    ensures |r| == |models|
    ensures forall i | 0 <= i < |r| :: r[i] == Key(AttributeKey(I18nKey(models[i], env.activeRecord30), name))
  {
    seq(|models|, i requires 0 <= i < |models| => Key(AttributeKey(I18nKey(models[i], env.activeRecord30), name)))
  }

  function AttributeTemplate(detected: Option<string>): string {
    if detected.Some? then ATTRIBUTES_PREDICATE_TEMPLATE else ATTRIBUTES_TEMPLATE
  }

  /**
   * The `defaults` list `attribute` builds, before the shift: the ancestor
   * keys, the template, and the caller's default last.
   */
  function AttributeFallbacks(env: Env, context: Context, name: string, default: Option<Entry>): (r: seq<Entry>)
    ensures |r| > 0
  {
    AncestorKeys(env, ModelNames(context.klass.ancestors), name)
      + [Literal(AttributeTemplate(env.detectPredicate(name)))]
      + (if default.Some? then [default.value] else [])
  }

  /** `attribute_names`: the tokens of the field name once its predicate is stripped. */
  function AttributeNames(env: Env, name: string): seq<string> {
    Split(AttributesString(name, env.detectPredicate(name)))
  }

  /** `translated_names`: one label per token, in token order. */
  function AttributeNameLabels(env: Env, context: Context, tokens: seq<string>, includeAssociations: bool): (r: seq<string>)
    ensures |r| == |tokens|
    ensures forall i | 0 <= i < |r| :: r[i] == AttributeNameLabel(env, context, tokens[i], includeAssociations)
  {
    seq(|tokens|, i requires 0 <= i < |tokens| => AttributeNameLabel(env, context, tokens[i], includeAssociations))
  }

  /** `interpolations[:attributes]`: the token labels joined by the translated combinator. */
  function AttributesPhrase(env: Env, context: Context, name: string, includeAssociations: bool): string {
    var attributesStr := AttributesString(name, env.detectPredicate(name));
    Join(AttributeNameLabels(env, context, Split(attributesStr), includeAssociations),
         " " + Word(env, Combinator(attributesStr)) + " ")
  }

  /** The interpolation values of `attribute`. */
  function AttributeValues(env: Env, context: Context, name: string, includeAssociations: bool): map<string, string> {
    var values := map[ATTRIBUTES := AttributesPhrase(env, context, name, includeAssociations)];
    match env.detectPredicate(name)
    case Some(p) => values[PREDICATE := Predicate(env, p)]
    case None => values
  }

  /** The label `attribute(name, :context => context, ...)` returns. */
  function AttributeLabel(env: Env, context: Context, name: string, includeAssociations: bool, default: Option<Entry>): string {
    TranslateChain(env.translations,
                   AttributeFallbacks(env, context, name, default),
                   AttributeValues(env, context, name, includeAssociations))
  }

  /** One attribute key per ancestor that has a model name, most derived first. */
  method AncestorDefaults(env: Env, models: seq<ModelName>, name: string) returns (defaults: seq<Entry>)
    ensures defaults == AncestorKeys(env, models, name)
  {
    defaults := [];
    var i := 0;
    while i < |models|
      invariant 0 <= i <= |models|
      invariant defaults == AncestorKeys(env, models[..i], name)
    {
      defaults := defaults + [Key(AttributeKey(I18nKey(models[i], env.activeRecord30), name))];
      i := i + 1;
    }
    assert models[..i] == models;
  }

  /** The translated label of every attribute token, in order. */
  method TranslatedNames(env: Env, context: Context, tokens: seq<string>, includeAssociations: bool)
    returns (names: seq<string>)
    ensures names == AttributeNameLabels(env, context, tokens, includeAssociations)
  {
    names := [];
    var j := 0;
    while j < |tokens|
      invariant 0 <= j <= |tokens|
      invariant names == AttributeNameLabels(env, context, tokens[..j], includeAssociations)
    {
      var translated := AttributeName(env, context, tokens[j], includeAssociations);
      LabelsSnoc(env, context, tokens[..j], tokens[j], includeAssociations);
      assert tokens[..j + 1] == tokens[..j] + [tokens[j]];
      names := names + [translated];
      j := j + 1;
    }
    assert tokens[..j] == tokens;
  }

  lemma LabelsSnoc(env: Env, context: Context, tokens: seq<string>, token: string, includeAssociations: bool)
    ensures AttributeNameLabels(env, context, tokens + [token], includeAssociations)
              == AttributeNameLabels(env, context, tokens, includeAssociations) + [AttributeNameLabel(env, context, token, includeAssociations)]
  {
  }

  /**
   * The body of `attribute` once the context is known: the fallback list
   * (ancestor keys, template, caller's default) and the interpolation values
   * (the joined token labels and, with a predicate, its translation).
   */
  method AttributeDefaults(env: Env, ctx: Context, key: string, includeAssociations: bool, given: Option<Entry>)
    returns (defaults: seq<Entry>, interpolations: map<string, string>)
    ensures defaults == AttributeFallbacks(env, ctx, key, given)
    ensures interpolations == AttributeValues(env, ctx, key, includeAssociations)
  {
    var originalName := key;
    var baseAncestors := ModelNames(ctx.klass.ancestors);
    var detected := env.detectPredicate(originalName);
    var attributesStr := StripSuffix(originalName, "_" + detected.GetOr(""));
    var attributeNames := Split(attributesStr);
    var combinator := Combinator(attributesStr);

    defaults := AncestorDefaults(env, baseAncestors, originalName);
    var translatedNames := TranslatedNames(env, ctx, attributeNames, includeAssociations);

    interpolations := map[];
    interpolations := interpolations[ATTRIBUTES := Join(translatedNames, " " + Word(env, combinator) + " ")];
    if detected.Some? {
      defaults := defaults + [Literal(ATTRIBUTES_PREDICATE_TEMPLATE)];
      interpolations := interpolations[PREDICATE := Predicate(env, detected.value)];
    } else {
      defaults := defaults + [Literal(ATTRIBUTES_TEMPLATE)];
    }
    if given.Some? {
      defaults := defaults + [given.value];
    }
  }

  /**
   * `Translate.attribute(key, options)`: raises when the options carry no
   * context; otherwise translates the whole field name through its ancestor
   * keys and a template over the translated tokens and predicate. The
   * caller's hash loses `:context` and `:default` and gains `:count` (when
   * it had none) and the shifted fallback list under `:default`.
   * A list given by the caller as `:default` is not modelled.
   */
  method Attribute(env: Env, key: string, options: Options) returns (r: Result<string, Error>)
    requires !options.default.Fallbacks?
    modifies options
    ensures options.context.None?
    ensures options.includeAssociations == old(options.includeAssociations)
    ensures old(options.context).None? ==>
              && r == Failure(ArgumentError(ATTRIBUTE_CONTEXT_REQUIRED))
              && options.count == old(options.count) && options.default == old(options.default)
    ensures old(options.context).Some? ==>
              var context := old(options.context).value;
              var default := CallerDefault(old(options.default));
              && r == Success(AttributeLabel(env, context, key, old(options.includeAssociations), default))
              && options.count == (if old(options.count).Some? then old(options.count) else Some(1))
              && options.default == Fallbacks(AttributeFallbacks(env, context, key, default)[1..])
  {
    var context := options.context;
    options.context := None;
    if context.None? {
      return Failure(ArgumentError(ATTRIBUTE_CONTEXT_REQUIRED));
    }
    var ctx := context.value;
    var given := CallerDefault(options.default);
    var defaults, interpolations := AttributeDefaults(env, ctx, key, options.includeAssociations, given);
    if options.default.Given? {
      options.default := NoDefault;
    }
    if options.count.None? {
      options.count := Some(1);
    }
    options.default := Fallbacks(defaults[1..]);
    var primary := defaults[0];
    defaults := defaults[1..];
    r := Success(Translate(env.translations, primary.KeyName(), defaults, interpolations));
  }
}
