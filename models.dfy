/**
 * The ActiveRecord and search-context introspection `translate.rb` relies
 * on, as plain values: a model class with its `model_name` and
 * `i18n_scope`, its ancestor chain, and a search context that knows its
 * root class, how to split an association path off an attribute name and
 * which class a path leads to. The last two are given functions: the model
 * says nothing about how Ransack computes them.
 */
module Models {
  import opened Wrappers

  /** `klass.model_name`: its `i18n_key` and its `human` name. */
  datatype ModelName = ModelName(i18nKey: string, human: string)

  /** One entry of `klass.ancestors`; `modelName` is `None` when it does not respond to `model_name`. */
  datatype Ancestor = Ancestor(modelName: Option<ModelName>)

  /** A model class: `model_name`, `i18n_scope` and `ancestors` (most derived first). */
  datatype ModelClass = ModelClass(modelName: ModelName, i18nScope: string, ancestors: seq<Ancestor>)

  /** A search context: `klass`, `association_path(name)` and `traverse(path)`. */
  datatype Context = Context(
    klass: ModelClass,
    associationPath: string -> string,
    traverse: string -> ModelClass)

  /**
   * `ancestors.select { |x| x.respond_to?(:model_name) }`: the model names
   * of the ancestors that have one, in ancestor order.
   */
  function ModelNames(ancestors: seq<Ancestor>): (r: seq<ModelName>)
    ensures |r| <= |ancestors|
    ensures ancestors != [] && ancestors[0].modelName.Some? ==> r != [] && r[0] == ancestors[0].modelName.value
    ensures (forall i | 0 <= i < |ancestors| :: ancestors[i].modelName.None?) ==> r == []
    ensures (forall i | 0 <= i < |ancestors| :: ancestors[i].modelName.Some?) ==>
              |r| == |ancestors| && forall i | 0 <= i < |r| :: r[i] == ancestors[i].modelName.value
    decreases |ancestors|
  {
    if ancestors == [] then []
    else
      var rest := ModelNames(ancestors[1..]);
      match ancestors[0].modelName
      case Some(m) => [m] + rest
      case None => rest
  }

  /** Selecting over a concatenation selects over each part, keeping their order. */
  lemma {:induction false} ModelNamesAppend(a: seq<Ancestor>, b: seq<Ancestor>)
    ensures ModelNames(a + b) == ModelNames(a) + ModelNames(b)
    decreases |a|
  {
    if a == [] {
      assert a + b == b;
    } else {
      assert (a + b)[0] == a[0];
      assert (a + b)[1..] == a[1..] + b;
      ModelNamesAppend(a[1..], b);
    }
  }

  /** One ancestor contributes its model name when it has one, and nothing otherwise. */
  lemma ModelNamesSingle(x: Ancestor)
    ensures ModelNames([x]) == if x.modelName.Some? then [x.modelName.value] else []
  {
    assert [x][1..] == [];
  }
}
