/**
 * What `Ransack::Translate` promises about its labels, proved of the
 * specification functions in `Translate`: which key each operation tries
 * first, the order of its fallbacks, that every chain but one ends in a
 * literal that always resolves, and what the labels are when no
 * translation is loaded.
 */
module TranslateProperties {
  import opened Wrappers
  import opened Text
  import opened I18n
  import opened Models
  import opened Translate

  /** The entries `I18n.translate(chain.first, :default => chain.rest)` tries. */
  function Candidates(chain: seq<Entry>): (r: seq<Entry>)
    requires |chain| > 0
    ensures chain[0].Key? ==> r == chain
  {
    [Key(chain[0].KeyName())] + chain[1..]
  }

  /** Some entry of the chain resolves, so the label is not a missing-translation text. */
  predicate ChainResolves(store: Store, chain: seq<Entry>)
    requires |chain| > 0
  {
    Lookup(store, Candidates(chain)).Some?
  }

  // ------------------------------------------------------ word and predicate

  /** `word(k)` is the translation of `ransack.<k>`, and exactly `k` when there is none. */
  lemma WordResolution(env: Env, key: string)
    ensures Word(env, key) == if WordKey(key) in env.translations then env.translations[WordKey(key)] else key
  {
    var chain := [Key(WordKey(key))] + [Literal(key)];
    if WordKey(key) in env.translations {
      LookupFirstMatch(env.translations, chain, 0);
      InterpolateNoValues(env.translations[WordKey(key)]);
    } else {
      LookupFirstMatch(env.translations, chain, 1);
      InterpolateNoValues(key);
    }
  }

  /** `predicate(k)` is the translation of `ransack.predicates.<k>`, and exactly `k` when there is none. */
  lemma PredicateResolution(env: Env, key: string)
    ensures Predicate(env, key) == if PredicateKey(key) in env.translations then env.translations[PredicateKey(key)] else key
  {
    var chain := [Key(PredicateKey(key))] + [Literal(key)];
    if PredicateKey(key) in env.translations {
      LookupFirstMatch(env.translations, chain, 0);
      InterpolateNoValues(env.translations[PredicateKey(key)]);
    } else {
      LookupFirstMatch(env.translations, chain, 1);
      InterpolateNoValues(key);
    }
  }

  // ------------------------------------------------------------ association

  /**
   * `association(k)` tries `<scope>.models.<root key>` for a blank `k` and
   * `ransack.associations.<root key>.<k>` otherwise, and falls back to the
   * human name of `traverse(k)`.
   */
  lemma AssociationResolution(env: Env, context: Context, key: string)
    ensures var rootKey := I18nKey(context.klass.modelName, env.activeRecord30);
            var primary := if IsBlank(key) then ModelKey(context.klass.i18nScope, rootKey) else AssociationKey(rootKey, key);
            && AssociationFallbacks(env, context, key) == [Key(primary), Literal(context.traverse(key).modelName.human)]
            && ChainResolves(env.translations, AssociationFallbacks(env, context, key))
            && AssociationLabel(env, context, key)
               == if primary in env.translations then env.translations[primary] else context.traverse(key).modelName.human
  {
    var chain := AssociationFallbacks(env, context, key);
    var primary := chain[0].name;
    if primary in env.translations {
      LookupFirstMatch(env.translations, chain, 0);
      InterpolateNoValues(env.translations[primary]);
    } else {
      LookupFirstMatch(env.translations, chain, 1);
      InterpolateNoValues(context.traverse(key).modelName.human);
    }
  }

  // --------------------------------------------------------- attribute_name

  /** A token with a blank association path keeps its name, bar one leading '_'. */
  lemma AttrNameWithoutPath(name: string)
    ensures AttrName(name, "") == if |name| > 0 && name[0] == '_' then name[1..] else name
  {
    assert "" + "_" == "_";
    if |name| > 0 && name[0] == '_' {
      assert IsPrefix("_", name);
    }
  }

  /**
   * `attr_fallback_name` is the first of `ransack.attributes.<key>.<attr>`,
   * `<scope>.attributes.<key>.<attr>` and `.attributes.<attr>` that has a
   * translation, where the key and scope are the associated class's when the
   * token has an association path and the root class's otherwise; it is the
   * humanised attribute name when none has one.
   */
  lemma AttrFallbackResolution(env: Env, context: Context, name: string)
    ensures var path := context.associationPath(name);
            var target := if IsBlank(path) then context.klass else context.traverse(path);
            var key := I18nKey(target.modelName, env.activeRecord30);
            var attr := AttrName(name, path);
            AttrFallbacks(env, context, name)
              == [ Key(AttributeKey(key, attr)), Key(ScopedAttributeKey(target.i18nScope, key, attr)),
                   Key(RelativeAttributeKey(attr)), Literal(env.humanize(attr)) ]
    ensures var chain := AttrFallbacks(env, context, name);
            && Lookup(env.translations, chain).Some?
            && AttrFallbackName(env, context, name) == Lookup(env.translations, chain).value
            && ((forall i | 0 <= i < 3 :: chain[i].name !in env.translations) ==>
                  AttrFallbackName(env, context, name) == env.humanize(AttrName(name, context.associationPath(name))))
  {
    var chain := AttrFallbacks(env, context, name);
    var store := env.translations;
    assert Resolves(store, chain[3]);
    InterpolateNoValues(Lookup(store, chain).value);
    if forall i | 0 <= i < 3 :: chain[i].name !in store {
      LookupFirstMatch(store, chain, 3);
    }
  }

  /** No interpolation name contains the closing brace. */
  lemma NamesHaveNoBrace()
    ensures '}' !in ATTRIBUTES && '}' !in PREDICATE && '}' !in ATTR_FALLBACK_NAME && '}' !in ASSOCIATION_NAME
  {
  }

  /** A key followed by a literal: the key's translation if it has one, else the literal. */
  lemma KeyThenLiteral(store: Store, key: string, template: string, values: map<string, string>)
    ensures Lookup(store, [Key(key)] + [Literal(template)]).Some?
    ensures I18n.Translate(store, key, [Literal(template)], values)
              == Interpolate(if key in store then store[key] else template, values)
  {
    var chain := [Key(key)] + [Literal(template)];
    if key in store {
      LookupFirstMatch(store, chain, 0);
    } else {
      LookupFirstMatch(store, chain, 1);
    }
  }

  /**
   * The outer chain of `attribute_name` is `ransack.attributes.<root key>.<name>`
   * then a template that names `%{association_name}` exactly when
   * associations are included and the token has an associated class; and the
   * association's label is among the interpolation values exactly then.
   */
  lemma AttributeNameFallbackShape(env: Env, context: Context, name: string, includeAssociations: bool)
    ensures var chain := AttributeNameFallbacks(env, context, name, includeAssociations);
            && |chain| == 2
            && chain[0] == Key(AttributeKey(I18nKey(context.klass.modelName, env.activeRecord30), name))
            && (chain[1] == Literal(ASSOCIATION_ATTR_TEMPLATE)) == WithAssociationName(context, name, includeAssociations)
            && (chain[1] == Literal(ATTR_FALLBACK_TEMPLATE)) == !WithAssociationName(context, name, includeAssociations)
            && ChainResolves(env.translations, chain)
    ensures (ASSOCIATION_NAME in AttributeNameValues(env, context, name, includeAssociations))
              <==> WithAssociationName(context, name, includeAssociations)
  {
    var chain := AttributeNameFallbacks(env, context, name, includeAssociations);
    assert ASSOCIATION_ATTR_TEMPLATE != ATTR_FALLBACK_TEMPLATE;
    assert ATTR_FALLBACK_NAME != ASSOCIATION_NAME;
    KeyThenLiteral(env.translations, chain[0].name, chain[1].text, map[]);
    assert Candidates(chain) == [Key(chain[0].name)] + [Literal(chain[1].text)];
  }

  /**
   * Without a translation for `ransack.attributes.<root key>.<name>` a
   * token's label is the association's label and a space (when included) in
   * front of `attr_fallback_name`; with one, it is that translation.
   */
  lemma AttributeNameResolution(env: Env, context: Context, name: string, includeAssociations: bool)
    ensures var primary := AttributeKey(I18nKey(context.klass.modelName, env.activeRecord30), name);
            var values := AttributeNameValues(env, context, name, includeAssociations);
            && (primary in env.translations ==>
                  AttributeNameLabel(env, context, name, includeAssociations) == Interpolate(env.translations[primary], values))
            && (primary !in env.translations ==>
                  AttributeNameLabel(env, context, name, includeAssociations)
                    == (if WithAssociationName(context, name, includeAssociations)
                        then AssociationLabel(env, context, context.associationPath(name)) + " "
                        else "")
                       + AttrFallbackName(env, context, name))
  {
    var chain := AttributeNameFallbacks(env, context, name, includeAssociations);
    var values := AttributeNameValues(env, context, name, includeAssociations);
    var with := WithAssociationName(context, name, includeAssociations);
    KeyThenLiteral(env.translations, chain[0].name, chain[1].text, values);
    assert AttributeNameLabel(env, context, name, includeAssociations)
        == I18n.Translate(env.translations, chain[0].name, [Literal(chain[1].text)], values);
    assert values[ATTR_FALLBACK_NAME] == AttrFallbackName(env, context, name);
    NamesHaveNoBrace();
    if with {
      assert chain[1].text == ASSOCIATION_ATTR_TEMPLATE;
      assert values[ASSOCIATION_NAME] == AssociationLabel(env, context, context.associationPath(name));
      InterpolateTwo(ASSOCIATION_NAME, ATTR_FALLBACK_NAME, values);
    } else {
      assert chain[1].text == ATTR_FALLBACK_TEMPLATE;
      InterpolateOne(ATTR_FALLBACK_NAME, values);
    }
  }

  /**
   * With no translations loaded, a token's label is the humanised attribute
   * name, preceded by the associated model's human name and a space when
   * associations are included and the token has one.
   */
  lemma AttributeNameWithoutTranslations(env: Env, context: Context, name: string, includeAssociations: bool)
    requires env.translations == map[]
    ensures var path := context.associationPath(name);
            AttributeNameLabel(env, context, name, includeAssociations)
              == (if includeAssociations && !IsBlank(path) then context.traverse(path).modelName.human + " " else "")
                 + env.humanize(AttrName(name, path))
  {
    AttributeNameResolution(env, context, name, includeAssociations);
    AttributeNameFallbackShape(env, context, name, includeAssociations);
    AttrFallbackResolution(env, context, name);
    AssociationResolution(env, context, context.associationPath(name));
  }

  // -------------------------------------------------------------- attribute

  /**
   * The order of `attribute`'s fallback list: one key per model-name
   * ancestor, in ancestor order, then the template (with `%{predicate}`
   * exactly when a predicate was detected), then the caller's default.
   */
  lemma AttributeFallbackOrder(env: Env, context: Context, name: string, default: Option<Entry>)
    ensures var models := ModelNames(context.klass.ancestors);
            var chain := AttributeFallbacks(env, context, name, default);
            && |chain| == |models| + 1 + (if default.Some? then 1 else 0)
            && (forall i | 0 <= i < |models| :: chain[i] == Key(AttributeKey(I18nKey(models[i], env.activeRecord30), name)))
            && chain[|models|] == Literal(if env.detectPredicate(name).Some? then ATTRIBUTES_PREDICATE_TEMPLATE else ATTRIBUTES_TEMPLATE)
            && (default.Some? ==> chain[|models| + 1] == default.value)
  {
  }

  /**
   * When several ancestors have a translation for the field, the most derived
   * one wins: the first ancestor key with a translation gives the template.
   */
  lemma AttributeMostDerivedAncestorWins(
    env: Env, context: Context, name: string, includeAssociations: bool, default: Option<Entry>, i: nat)
    requires var models := ModelNames(context.klass.ancestors);
             && i < |models|
             && AttributeKey(I18nKey(models[i], env.activeRecord30), name) in env.translations
             && forall j | 0 <= j < i :: AttributeKey(I18nKey(models[j], env.activeRecord30), name) !in env.translations
    ensures var models := ModelNames(context.klass.ancestors);
            AttributeLabel(env, context, name, includeAssociations, default)
              == Interpolate(env.translations[AttributeKey(I18nKey(models[i], env.activeRecord30), name)],
                             AttributeValues(env, context, name, includeAssociations))
  {
    var chain := AttributeFallbacks(env, context, name, default);
    AttributeFallbackOrder(env, context, name, default);
    LookupFirstMatch(env.translations, chain, i);
  }

  /**
   * When no ancestor key has a translation, the label is the template filled
   * in: the attributes phrase, followed by a space and the translated
   * predicate when a predicate was detected. The caller's default plays no part.
   */
  lemma AttributeFallsBackToTemplate(
    env: Env, context: Context, name: string, includeAssociations: bool, default: Option<Entry>)
    requires var models := ModelNames(context.klass.ancestors);
             && |models| > 0
             && forall j | 0 <= j < |models| :: AttributeKey(I18nKey(models[j], env.activeRecord30), name) !in env.translations
    ensures ChainResolves(env.translations, AttributeFallbacks(env, context, name, default))
    ensures AttributeLabel(env, context, name, includeAssociations, default)
              == match env.detectPredicate(name)
                 case Some(p) => AttributesPhrase(env, context, name, includeAssociations) + " " + Predicate(env, p)
                 case None => AttributesPhrase(env, context, name, includeAssociations)
  {
    AttributeTemplateWins(env, context, name, includeAssociations, default);
    AttributeTemplateFilled(env, context, name, includeAssociations);
  }

  /** When no ancestor key is translated, the template is what gets interpolated. */
  lemma AttributeTemplateWins(
    env: Env, context: Context, name: string, includeAssociations: bool, default: Option<Entry>)
    requires var models := ModelNames(context.klass.ancestors);
             && |models| > 0
             && forall j | 0 <= j < |models| :: AttributeKey(I18nKey(models[j], env.activeRecord30), name) !in env.translations
    ensures ChainResolves(env.translations, AttributeFallbacks(env, context, name, default))
    ensures AttributeLabel(env, context, name, includeAssociations, default)
              == Interpolate(AttributeTemplate(env.detectPredicate(name)), AttributeValues(env, context, name, includeAssociations))
  {
    var n := |ModelNames(context.klass.ancestors)|;
    var chain := AttributeFallbacks(env, context, name, default);
    assert chain[n] == Literal(AttributeTemplate(env.detectPredicate(name)));
    assert Candidates(chain) == chain;
    LookupFirstMatch(env.translations, chain, n);
  }

  /** The template filled in with `attribute`'s interpolation values. */
  lemma AttributeTemplateFilled(env: Env, context: Context, name: string, includeAssociations: bool)
    ensures Interpolate(AttributeTemplate(env.detectPredicate(name)), AttributeValues(env, context, name, includeAssociations))
              == match env.detectPredicate(name)
                 case Some(p) => AttributesPhrase(env, context, name, includeAssociations) + " " + Predicate(env, p)
                 case None => AttributesPhrase(env, context, name, includeAssociations)
  {
    var values := AttributeValues(env, context, name, includeAssociations);
    NamesHaveNoBrace();
    if env.detectPredicate(name).Some? {
      InterpolateTwo(ATTRIBUTES, PREDICATE, values);
    } else {
      InterpolateOne(ATTRIBUTES, values);
    }
  }

  /**
   * `attribute` always finds a template when the class has at least one
   * ancestor with a model name (in ActiveRecord, the class itself).
   */
  lemma AttributeResolves(env: Env, context: Context, name: string, default: Option<Entry>)
    requires |ModelNames(context.klass.ancestors)| > 0
    ensures ChainResolves(env.translations, AttributeFallbacks(env, context, name, default))
  {
    var n := |ModelNames(context.klass.ancestors)|;
    var chain := AttributeFallbacks(env, context, name, default);
    assert chain[n] == Literal(AttributeTemplate(env.detectPredicate(name)));
    assert Candidates(chain)[n] == chain[n];
  }

  /**
   * Without a model-name ancestor the template itself becomes the primary
   * key of the lookup, and with no default and no such key the result is
   * the missing-translation text.
   */
  lemma AttributeWithoutModelAncestors(env: Env, context: Context, name: string, includeAssociations: bool)
    requires ModelNames(context.klass.ancestors) == []
    requires AttributeTemplate(env.detectPredicate(name)) !in env.translations
    ensures AttributeLabel(env, context, name, includeAssociations, None)
              == MissingTranslation(AttributeTemplate(env.detectPredicate(name)))
  {
    var chain := AttributeFallbacks(env, context, name, None);
    assert chain == [Literal(AttributeTemplate(env.detectPredicate(name)))];
    assert Candidates(chain) == [Key(AttributeTemplate(env.detectPredicate(name)))];
  }

  /**
   * The caller's `:default` is appended after the literal template, which
   * always resolves; so as the code is written the default never changes the
   * label of a class with a model-name ancestor.
   */
  lemma CallerDefaultIgnored(env: Env, context: Context, name: string, includeAssociations: bool, default: Entry)
    requires |ModelNames(context.klass.ancestors)| > 0
    ensures AttributeLabel(env, context, name, includeAssociations, Some(default))
              == AttributeLabel(env, context, name, includeAssociations, None)
  {
    var without := AttributeFallbacks(env, context, name, None);
    var withDefault := AttributeFallbacks(env, context, name, Some(default));
    assert withDefault == without + [default];
    AttributeResolves(env, context, name, None);
    var tried := [Key(without[0].KeyName())] + without[1..];
    assert [Key(withDefault[0].KeyName())] + withDefault[1..] == tried + [default];
    LookupAppend(env.translations, tried, [default]);
  }

  /**
   * The fallback list with the caller's default placed where it can take
   * effect: after the ancestor keys and before the template.
   */
  function IntendedAttributeFallbacks(env: Env, context: Context, name: string, default: Option<Entry>): (r: seq<Entry>)
    ensures |r| > 0
  {
    AncestorKeys(env, ModelNames(context.klass.ancestors), name)
      + (if default.Some? then [default.value] else [])
      + [Literal(AttributeTemplate(env.detectPredicate(name)))]
  }

  function IntendedAttributeLabel(
    env: Env, context: Context, name: string, includeAssociations: bool, default: Option<Entry>): string
  {
    TranslateChain(env.translations,
                   IntendedAttributeFallbacks(env, context, name, default),
                   AttributeValues(env, context, name, includeAssociations))
  }

  /**
   * With the default placed before the template, an ancestor key with a
   * translation still wins over the caller's default.
   */
  lemma IntendedAncestorStillWins(
    env: Env, context: Context, name: string, includeAssociations: bool, default: Option<Entry>, i: nat)
    requires var models := ModelNames(context.klass.ancestors);
             && i < |models|
             && AttributeKey(I18nKey(models[i], env.activeRecord30), name) in env.translations
             && forall j | 0 <= j < i :: AttributeKey(I18nKey(models[j], env.activeRecord30), name) !in env.translations
    ensures var models := ModelNames(context.klass.ancestors);
            IntendedAttributeLabel(env, context, name, includeAssociations, default)
              == Interpolate(env.translations[AttributeKey(I18nKey(models[i], env.activeRecord30), name)],
                             AttributeValues(env, context, name, includeAssociations))
  {
    var chain := IntendedAttributeFallbacks(env, context, name, default);
    assert Candidates(chain) == chain;
    LookupFirstMatch(env.translations, chain, i);
  }

  /**
   * With the default placed before the template, a default that resolves is
   * used when no ancestor key has a translation, and without a default
   * nothing changes.
   */
  lemma IntendedCallerDefaultUsed(
    env: Env, context: Context, name: string, includeAssociations: bool, default: Entry)
    requires var models := ModelNames(context.klass.ancestors);
             && |models| > 0
             && forall j | 0 <= j < |models| :: AttributeKey(I18nKey(models[j], env.activeRecord30), name) !in env.translations
    requires Resolves(env.translations, default)
    ensures IntendedAttributeLabel(env, context, name, includeAssociations, Some(default))
              == Interpolate(Resolved(env.translations, default), AttributeValues(env, context, name, includeAssociations))
    ensures IntendedAttributeLabel(env, context, name, includeAssociations, None)
              == AttributeLabel(env, context, name, includeAssociations, None)
  {
    var n := |ModelNames(context.klass.ancestors)|;
    var chain := IntendedAttributeFallbacks(env, context, name, Some(default));
    assert chain[n] == default;
    assert Candidates(chain) == chain;
    LookupFirstMatch(env.translations, chain, n);
    assert IntendedAttributeFallbacks(env, context, name, None) == AttributeFallbacks(env, context, name, None);
  }

  /** With a single token the combinator's word does not appear in the phrase. */
  lemma SingleTokenIgnoresCombinator(env: Env, context: Context, name: string, includeAssociations: bool)
    requires |AttributeNames(env, name)| == 1
    ensures AttributesPhrase(env, context, name, includeAssociations)
              == AttributeNameLabel(env, context, AttributeNames(env, name)[0], includeAssociations)
  {
  }

  /**
   * With no translations loaded (and a model-name ancestor), the label is the
   * humanised tokens joined by " and " or " or ", followed by a space and the
   * predicate's name when a predicate was detected.
   */
  lemma AttributeWithoutTranslations(
    env: Env, context: Context, name: string, includeAssociations: bool, default: Option<Entry>)
    requires env.translations == map[]
    requires |ModelNames(context.klass.ancestors)| > 0
    ensures var attributesStr := AttributesString(name, env.detectPredicate(name));
            var phrase := Join(AttributeNameLabels(env, context, Split(attributesStr), includeAssociations),
                               " " + Combinator(attributesStr) + " ");
            AttributeLabel(env, context, name, includeAssociations, default)
              == match env.detectPredicate(name)
                 case Some(p) => phrase + " " + p
                 case None => phrase
  {
    var attributesStr := AttributesString(name, env.detectPredicate(name));
    AttributeFallsBackToTemplate(env, context, name, includeAssociations, default);
    WordResolution(env, Combinator(attributesStr));
    if env.detectPredicate(name).Some? {
      PredicateResolution(env, env.detectPredicate(name).value);
    }
  }
}
