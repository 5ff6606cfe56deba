/**
 * Role tagging of parameters. The library keeps, for every layer, a table from
 * each of its parameters to a set of tag strings. A pattern adds its role
 * names "phi", "psi" and "beta" to those sets, in that order. Under a role
 * other than phi it skips a parameter whose set already holds "phi".
 *
 * The tables of all layers are modelled as one map keyed by (layer, parameter).
 * The tagging loop is specified by left folds (`TagParams`, `TagLayers`,
 * `TagAll`). `Tagged` and `ExpectedTags` are its per-key closed forms.
 */
module Tagging {
  import opened Graph

  const Phi: string := "phi"
  const Psi: string := "psi"
  const Beta: string := "beta"

  type ParamKey = (LayerId, ParamId)
  type TagTable = map<ParamKey, set<string>>

  /** The mutable tag table shared by every layer (the `params` dicts). */
  class ParamTags {
    var tags: TagTable

    constructor (tags: TagTable)
      ensures this.tags == tags
    {
      this.tags := tags;
    }
  }

  /** The keys of one layer's parameters. */
  function LayerKeys(l: Layer): set<ParamKey>
  {
    set p | p in l.params :: (l.id, p)
  }

  lemma LayerKeysAt(l: Layer, k: ParamKey)
    ensures k in LayerKeys(l) <==> k.0 == l.id && k.1 in l.params
  {
    if k.0 == l.id && k.1 in l.params {
      assert k == (l.id, k.1);
    }
  }

  /** The keys of every parameter of every listed layer. */
  function KeysOf(layers: seq<Layer>): set<ParamKey>
  {
    if layers == [] then {} else KeysOf(layers[..|layers| - 1]) + LayerKeys(layers[|layers| - 1])
  }

  lemma {:induction false} KeysOfPrefix(layers: seq<Layer>, i: nat)
    requires i <= |layers|
    ensures KeysOf(layers[..i]) <= KeysOf(layers)
    decreases |layers|
  {
    if i < |layers| {
      var n := |layers| - 1;
      assert layers[..n][..i] == layers[..i];
      KeysOfPrefix(layers[..n], i);
    } else {
      assert layers[..i] == layers;
    }
  }

  /** Every parameter of the listed layers has a tag set (the library keeps one
      for each parameter a layer reports). */
  predicate Covers(t: TagTable, layers: seq<Layer>)
  {
    KeysOf(layers) <= t.Keys
  }

  /** What the tagging rule does to one tag set `s`: `reached` says whether
      the role's network reaches the parameter. */
  function Tagged(s: set<string>, reached: bool, role: string): set<string>
  {
    if reached && (role == Phi || Phi !in s) then s + {role} else s
  }

  /** One iteration of the inner loop: tag the parameter `key` with `role`. */
  function TagStep(t: TagTable, key: ParamKey, role: string): (r: TagTable)
    requires key in t
    ensures r.Keys == t.Keys
    ensures r[key] == Tagged(t[key], true, role)
    ensures forall k :: k in t && k != key ==> r[k] == t[k]
  {
    if role != Phi && Phi in t[key] then t else t[key := t[key] + {role}]
  }

  /** The inner loop over the parameters `ps` of layer `lid`. */
  function TagParams(t: TagTable, lid: LayerId, ps: seq<ParamId>, role: string): (r: TagTable)
    requires forall p :: p in ps ==> (lid, p) in t
    ensures r.Keys == t.Keys
    decreases |ps|
  {
    if ps == [] then t
    else
      var n := |ps| - 1;
      TagStep(TagParams(t, lid, ps[..n], role), (lid, ps[n]), role)
  }

  /** `_tag_function_parameters`: the outer loop over the layers of one network. */
  function TagLayers(t: TagTable, layers: seq<Layer>, role: string): (r: TagTable)
    requires Covers(t, layers)
    ensures r.Keys == t.Keys
    decreases |layers|
  {
    if layers == [] then t
    else
      var n := |layers| - 1;
      var mid := TagLayers(t, layers[..n], role);
      assert forall p :: p in layers[n].params ==> (layers[n].id, p) in LayerKeys(layers[n]);
      TagParams(mid, layers[n].id, layers[n].params, role)
  }

  /** The constructor's pass: phi, then psi, then beta. */
  function TagAll(t: TagTable, phi: seq<Layer>, psi: seq<Layer>, beta: seq<Layer>): (r: TagTable)
    requires Covers(t, phi) && Covers(t, psi) && Covers(t, beta)
    ensures r.Keys == t.Keys
  {
    TagLayers(TagLayers(TagLayers(t, phi, Phi), psi, Psi), beta, Beta)
  }

  /** The tag set a parameter ends with, stated without the loops. */
  function ExpectedTags(s: set<string>, inPhi: bool, inPsi: bool, inBeta: bool): set<string>
  {
    s + (if inPhi then {Phi} else {})
      + (if !inPhi && Phi !in s
         then (if inPsi then {Psi} else {}) + (if inBeta then {Beta} else {})
         else {})
  }

  lemma TaggedTwice(s: set<string>, a: bool, role: string)
    ensures Tagged(Tagged(s, a, role), true, role) == Tagged(s, true, role)
  {
  }

  /** One network's pass changes each tag set as `Tagged` says. */
  lemma {:induction false} TagParamsAt(t: TagTable, lid: LayerId, ps: seq<ParamId>, role: string, k: ParamKey)
    requires forall p :: p in ps ==> (lid, p) in t
    requires k in t
    ensures TagParams(t, lid, ps, role)[k] == Tagged(t[k], k.0 == lid && k.1 in ps, role)
    decreases |ps|
  {
    if ps != [] {
      var n := |ps| - 1;
      TagParamsAt(t, lid, ps[..n], role, k);
      assert ps == ps[..n] + [ps[n]];
      assert k.1 in ps <==> k.1 in ps[..n] || k.1 == ps[n];
      var mid := TagParams(t, lid, ps[..n], role);
      if k == (lid, ps[n]) {
        TaggedTwice(t[k], k.1 in ps[..n], role);
      }
    }
  }

  lemma {:induction false} TagLayersAt(t: TagTable, layers: seq<Layer>, role: string, k: ParamKey)
    requires Covers(t, layers)
    requires k in t
    ensures TagLayers(t, layers, role)[k] == Tagged(t[k], k in KeysOf(layers), role)
    decreases |layers|
  {
    if layers != [] {
      var n := |layers| - 1;
      var l := layers[n];
      TagLayersAt(t, layers[..n], role, k);
      var mid := TagLayers(t, layers[..n], role);
      assert forall p :: p in l.params ==> (l.id, p) in LayerKeys(l);
      TagParamsAt(mid, l.id, l.params, role, k);
      LayerKeysAt(l, k);
      if k in LayerKeys(l) {
        TaggedTwice(t[k], k in KeysOf(layers[..n]), role);
      }
    }
  }

  /** The whole pass, in closed form: phi always adds "phi"; psi and beta add
      their names only to parameters that neither phi reaches nor already
      carry "phi". */
  lemma TagAllAt(t: TagTable, phi: seq<Layer>, psi: seq<Layer>, beta: seq<Layer>, k: ParamKey)
    requires Covers(t, phi) && Covers(t, psi) && Covers(t, beta)
    requires k in t
    ensures TagAll(t, phi, psi, beta)[k]
         == ExpectedTags(t[k], k in KeysOf(phi), k in KeysOf(psi), k in KeysOf(beta))
  {
    var t1 := TagLayers(t, phi, Phi);
    var t2 := TagLayers(t1, psi, Psi);
    TagLayersAt(t, phi, Phi, k);
    TagLayersAt(t1, psi, Psi, k);
    TagLayersAt(t2, beta, Beta, k);
    assert Psi != Phi by { assert Psi[1] != Phi[1]; }
    assert Beta != Phi by { assert Beta[0] != Phi[0]; }
  }

  /** Tagging only inserts: no key appears or disappears, no tag is removed. */
  lemma TagAllOnlyAdds(t: TagTable, phi: seq<Layer>, psi: seq<Layer>, beta: seq<Layer>, k: ParamKey)
    requires Covers(t, phi) && Covers(t, psi) && Covers(t, beta)
    requires k in t
    ensures k in TagAll(t, phi, psi, beta) && t[k] <= TagAll(t, phi, psi, beta)[k]
    ensures TagAll(t, phi, psi, beta)[k] - t[k] <= {Phi, Psi, Beta}
  {
    TagAllAt(t, phi, psi, beta, k);
  }

  /** A parameter phi reaches ends with "phi" and gains nothing else. */
  lemma TagAllPhiExclusive(t: TagTable, phi: seq<Layer>, psi: seq<Layer>, beta: seq<Layer>, k: ParamKey)
    requires Covers(t, phi) && Covers(t, psi) && Covers(t, beta)
    requires k in KeysOf(phi)
    ensures k in t && TagAll(t, phi, psi, beta)[k] == t[k] + {Phi}
  {
    TagAllAt(t, phi, psi, beta, k);
  }

  /** Tag sets of parameters no role reaches are untouched. */
  lemma TagAllUnreached(t: TagTable, phi: seq<Layer>, psi: seq<Layer>, beta: seq<Layer>, k: ParamKey)
    requires Covers(t, phi) && Covers(t, psi) && Covers(t, beta)
    requires k in t && k !in KeysOf(phi) && k !in KeysOf(psi) && k !in KeysOf(beta)
    ensures TagAll(t, phi, psi, beta)[k] == t[k]
  {
    TagAllAt(t, phi, psi, beta, k);
  }

  /** Every parameter psi or beta reaches ends tagged with its role unless it
      carries "phi"; one not already marked "phi" gets its role for sure. */
  lemma TagAllReached(t: TagTable, phi: seq<Layer>, psi: seq<Layer>, beta: seq<Layer>, k: ParamKey)
    requires Covers(t, phi) && Covers(t, psi) && Covers(t, beta)
    requires k in t
    ensures k in KeysOf(psi) ==> Phi in TagAll(t, phi, psi, beta)[k] || Psi in TagAll(t, phi, psi, beta)[k]
    ensures k in KeysOf(beta) ==> Phi in TagAll(t, phi, psi, beta)[k] || Beta in TagAll(t, phi, psi, beta)[k]
    ensures k !in KeysOf(phi) && Phi !in t[k] && k in KeysOf(psi) ==> Psi in TagAll(t, phi, psi, beta)[k]
    ensures k !in KeysOf(phi) && Phi !in t[k] && k in KeysOf(beta) ==> Beta in TagAll(t, phi, psi, beta)[k]
  {
    TagAllAt(t, phi, psi, beta, k);
  }
}
