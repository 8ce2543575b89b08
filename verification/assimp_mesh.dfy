/**
  The `AssimpMesh` class: the shared transform state, the texture list and
  the two operations with logic of their own, `bindTextures` (which sampler
  uniform and texture unit each texture gets) and `getModelMatrix`.
 */
module AssimpModel {
  import opened Glm
  import opened BoundingBox
  import opened Placement
  import opened Decimal

  /** A loaded texture: GL name, sampler kind and file path. */
  datatype Texture = Texture(id: nat, kind: string, path: string)

  datatype AssimpMesh = AssimpMesh(placement: Placement, box: Box, textures: seq<Texture>)

  /** The bloom radius a new `AssimpMesh` starts with. */
  const AssimpBloomR: real := 0.027

  /** The constructor: zero angles and translation, identity rotation, a zero box. */
  function NewAssimpMesh(textures: seq<Texture>): (m: AssimpMesh)
    ensures m.placement == Initial(Zero, AssimpBloomR)
    ensures MinBloomR <= m.placement.bloomR <= MaxBloomR
    ensures m.box == Box(Zero, Zero) && m.textures == textures
  {
    AssimpMesh(Initial(Zero, AssimpBloomR), Box(Zero, Zero), textures)
  }

  /**
    `getModelMatrix`. The source composes the rotation, the translation and a
    0.2 scaling and then assigns a fixed translation over the product, so
    only that translation is returned; the discarded products are not built
    here.
   */
  function ModelMatrix(m: AssimpMesh): (M: Mat4)
    ensures forall p :: TransformPoint(M, p) == Add(p, Vec3(0.0, -1.3, 0.0))
  {
    var v := Vec3(0.0, -1.3, 0.0);
    assert forall p :: TransformPoint(Translation(v), p) == Add(p, v) by {
      forall p ensures TransformPoint(Translation(v), p) == Add(p, v) {
        TranslationMoves(v, p);
      }
    }
    Translation(v)
  }

  /** The model matrix depends on nothing in the mesh, and moves every point down by 1.3. */
  lemma ModelMatrixIsFixed(m: AssimpMesh, m': AssimpMesh, p: Vec3)
    ensures ModelMatrix(m) == ModelMatrix(m')
    ensures TransformPoint(ModelMatrix(m), p) == Add(p, Vec3(0.0, -1.3, 0.0))
  {
    var M := Translation(Vec3(0.0, -1.3, 0.0));
    assert ModelMatrix(m) == M && ModelMatrix(m') == M;
    TranslationMoves(Vec3(0.0, -1.3, 0.0), p);
  }

  // ---------------------------------------------------------------------
  // bindTextures
  // ---------------------------------------------------------------------

  const Diffuse: string := "texture_diffuse"
  const Specular: string := "texture_specular"
  const Normal: string := "texture_normal"
  const Height: string := "texture_height"

  /** The four kinds that carry a per-kind counter. */
  predicate Counted(kind: string) {
    kind == Diffuse || kind == Specular || kind == Normal || kind == Height
  }

  /** How many textures of `ts` have kind `kind`. */
  function CountKind(ts: seq<Texture>, kind: string): (n: nat)
    ensures n <= |ts|
    decreases |ts|
  {
    if |ts| == 0 then 0
    else CountKind(ts[..|ts| - 1], kind) + (if ts[|ts| - 1].kind == kind then 1 else 0)
  }

  /**
    The sampler uniform of texture `i`: its kind followed by its 1-based rank
    among the textures of that kind, or the bare kind for any other kind.
   */
  function UniformName(ts: seq<Texture>, i: nat): string
    requires i < |ts|
  {
    var kind := ts[i].kind;
    if Counted(kind) then kind + NatToString(1 + CountKind(ts[..i], kind)) else kind
  }

  /** What one loop iteration does: activate a unit, point the sampler at it, bind the texture. */
  datatype Binding = Binding(unit: nat, uniform: string, textureId: nat)

  function Bound(ts: seq<Texture>, i: nat, offset: nat): Binding
    requires i < |ts|
  {
    Binding(i + offset, UniformName(ts, i), ts[i].id)
  }

  /**
    `bindTextures(shader, textureOffset)`, with the GL calls recorded as
    bindings: four counters starting at 1, one of them advanced for each
    texture of a counted kind.
   */
  method BindTextures(textures: seq<Texture>, offset: nat) returns (bindings: seq<Binding>)
    ensures |bindings| == |textures|
    ensures forall i :: 0 <= i < |textures| ==> bindings[i] == Bound(textures, i, offset)
  {
    var diffuseNr: nat := 1;
    var specularNr: nat := 1;
    var normalNr: nat := 1;
    var heightNr: nat := 1;
    bindings := [];
    var i := 0;
    while i < |textures|
      invariant 0 <= i <= |textures|
      invariant diffuseNr == 1 + CountKind(textures[..i], Diffuse)
      invariant specularNr == 1 + CountKind(textures[..i], Specular)
      invariant normalNr == 1 + CountKind(textures[..i], Normal)
      invariant heightNr == 1 + CountKind(textures[..i], Height)
      invariant |bindings| == i
      invariant forall j :: 0 <= j < i ==> bindings[j] == Bound(textures, j, offset)
    {
      var name := textures[i].kind;
      var number := "";
      CountStep(textures, i, Diffuse);
      CountStep(textures, i, Specular);
      CountStep(textures, i, Normal);
      CountStep(textures, i, Height);
      if name == Diffuse {
        number := NatToString(diffuseNr);
        diffuseNr := diffuseNr + 1;
      } else if name == Specular {
        number := NatToString(specularNr);
        specularNr := specularNr + 1;
      } else if name == Normal {
        number := NatToString(normalNr);
        normalNr := normalNr + 1;
      } else if name == Height {
        number := NatToString(heightNr);
        heightNr := heightNr + 1;
      }
      assert name + number == UniformName(textures, i);
      bindings := bindings + [Binding(i + offset, name + number, textures[i].id)];
      i := i + 1;
    }
  }

  /** Extending the prefix by texture `i` counts it once, for its own kind only. */
  lemma CountStep(ts: seq<Texture>, i: nat, kind: string)
    requires i < |ts|
    ensures CountKind(ts[..i + 1], kind) == CountKind(ts[..i], kind) + (if ts[i].kind == kind then 1 else 0)
  {
    assert ts[..i + 1][..i] == ts[..i];
  }

  /** A texture of kind `kind` at position `i` is counted before any later position `j`. */
  lemma RankGrows(ts: seq<Texture>, i: nat, j: nat, kind: string)
    requires i < j <= |ts| && ts[i].kind == kind
    ensures CountKind(ts[..i], kind) < CountKind(ts[..j], kind)
  {
    assert ts[..i + 1][..i] == ts[..i];
    CountKindMonotone(ts, i + 1, j, kind);
  }

  /** The count over a longer prefix is at least the count over a shorter one. */
  lemma {:induction false} CountKindMonotone(ts: seq<Texture>, i: nat, j: nat, kind: string)
    requires i <= j <= |ts|
    ensures CountKind(ts[..i], kind) <= CountKind(ts[..j], kind)
    decreases j - i
  {
    if i < j {
      CountKindMonotone(ts, i, j - 1, kind);
      assert ts[..j][..j - 1] == ts[..j - 1];
    }
  }

  /** The counted kinds are told apart by their ninth character. */
  lemma CountedKindsDiffer(a: string, b: string)
    requires Counted(a) && Counted(b)
    ensures 9 <= |a| && 9 <= |b|
    ensures a[8] == b[8] ==> a == b
  {
  }

  /**
    Two different textures of counted kinds never share a sampler uniform:
    the kinds differ, or the ranks do.
   */
  lemma UniformsDistinct(ts: seq<Texture>, i: nat, j: nat)
    requires i < |ts| && j < |ts| && i != j
    requires Counted(ts[i].kind) && Counted(ts[j].kind)
    ensures UniformName(ts, i) != UniformName(ts, j)
  {
    var a := ts[i].kind;
    var b := ts[j].kind;
    var ra := 1 + CountKind(ts[..i], a);
    var rb := 1 + CountKind(ts[..j], b);
    if UniformName(ts, i) == UniformName(ts, j) {
      var n := UniformName(ts, i);
      CountedKindsDiffer(a, b);
      assert n[8] == a[8] && n[8] == b[8];
      assert a == b;
      assert NatToString(ra) == n[|a|..] == NatToString(rb);
      NatToStringInjective(ra, rb);
      if i < j {
        RankGrows(ts, i, j, a);
      } else {
        RankGrows(ts, j, i, a);
      }
      assert false;
    }
  }

  /** Textures of the same uncounted kind all get the same bare uniform name. */
  lemma UncountedShareName(ts: seq<Texture>, i: nat, j: nat)
    requires i < |ts| && j < |ts| && ts[i].kind == ts[j].kind && !Counted(ts[i].kind)
    ensures UniformName(ts, i) == UniformName(ts, j) == ts[i].kind
  {
  }
}
