/** The few three.js objects a terrain chunk touches: a group that holds meshes and supplies
    the local-to-world transform, a mesh with its visibility flags, and a buffer geometry that
    receives named attributes and an index. */
module Scene {
  import opened Vectors

  datatype Option<T> = None | Some(value: T)

  /** `Array.prototype.indexOf`: the first position of `x` in `s`, or -1. */
  function IndexOf<T(==)>(s: seq<T>, x: T): (i: int)
    ensures -1 <= i < |s|
    ensures i == -1 <==> x !in s
    ensures 0 <= i ==> s[i] == x && x !in s[..i]
  {
    if s == [] then -1
    else if s[0] == x then 0
    else
      var j := IndexOf(s[1..], x);
      assert s[1..][..if j < 0 then 0 else j] == s[1..1 + if j < 0 then 0 else j];
      if j < 0 then -1 else j + 1
  }

  /** `s` with the first occurrence of `x` spliced out, as `Object3D.remove` does. */
  function Without<T(==)>(s: seq<T>, x: T): seq<T>
  {
    var i := IndexOf(s, x);
    if i < 0 then s else s[..i] + s[i + 1..]
  }

  /** Removing takes out exactly one occurrence when there is one and changes nothing
      otherwise: the first occurrence is spliced out, and the remaining elements keep their
      order. */
  lemma WithoutRemovesOne<T>(s: seq<T>, x: T)
    ensures multiset(Without(s, x)) == multiset(s) - multiset{x}
    ensures x !in s ==> Without(s, x) == s
    ensures x in s ==> |Without(s, x)| == |s| - 1
    ensures x in s ==> exists i :: 0 <= i < |s| && s[i] == x && x !in s[..i] && Without(s, x) == s[..i] + s[i + 1..]
  {
    var i := IndexOf(s, x);
    if i >= 0 {
      assert s == s[..i] + [x] + s[i + 1..];
      assert multiset(s) == multiset(s[..i]) + multiset{x} + multiset(s[i + 1..]);
      assert s[i] == x && x !in s[..i] && Without(s, x) == s[..i] + s[i + 1..];
    }
  }

  /** An element that occurred at most once is gone afterwards. */
  lemma WithoutOnce<T>(s: seq<T>, x: T)
    requires multiset(s)[x] <= 1
    ensures x !in Without(s, x)
  {
    WithoutRemovesOne(s, x);
    assert multiset(Without(s, x))[x] == 0;
  }

  /** The shared rendering material; the chunk never looks inside it. */
  class Material {
    constructor () {}
  }

  /** A `Float32BufferAttribute`: the array and the number of components per vertex. */
  datatype FloatAttribute = FloatAttribute(array: seq<real>, itemSize: nat)

  /** `new Uint32Array(indices)`: every entry reduced modulo 2³². The rebuild's indices all
      stay below 2³² (`Terrain.IndexArrayExact`), so the reduction never changes them there. */
  function ToUint32Array(s: seq<nat>): (r: seq<nat>)
    ensures |r| == |s|
    ensures forall k :: 0 <= k < |s| ==> r[k] == s[k] % 0x1_0000_0000
  {
    if s == [] then [] else [s[0] % 0x1_0000_0000] + ToUint32Array(s[1..])
  }

  /** Entries below 2³² pass into a `Uint32Array` unchanged. */
  lemma Uint32ArrayExact(s: seq<nat>)
    requires forall k :: 0 <= k < |s| ==> s[k] < 0x1_0000_0000
    ensures ToUint32Array(s) == s
  {
  }

  class Geometry {
    var attributes: map<string, FloatAttribute>
    /** The index attribute, once set. */
    var index: Option<seq<nat>>

    constructor ()
      ensures attributes == map[] && index == None
    {
      attributes := map[];
      index := None;
    }

    method SetAttribute(name: string, attribute: FloatAttribute)
      modifies this
      ensures attributes == old(attributes)[name := attribute] && index == old(index)
    {
      attributes := attributes[name := attribute];
    }

    method SetIndex(indices: seq<nat>)
      modifies this
      ensures index == Some(indices) && attributes == old(attributes)
    {
      index := Some(indices);
    }
  }

  class Mesh {
    const geometry: Geometry
    const material: Material
    var visible: bool
    var castShadow: bool
    var receiveShadow: bool

    /** `new Mesh(geometry, material)`: visible, casting and receiving no shadows. */
    constructor (geometry: Geometry, material: Material)
      ensures this.geometry == geometry && this.material == material
      ensures visible && !castShadow && !receiveShadow
    {
      this.geometry := geometry;
      this.material := material;
      visible := true;
      castShadow := false;
      receiveShadow := false;
    }
  }

  class Group {
    var children: seq<Mesh>
    /** The action of the group's local-to-world matrix on a point (`applyMatrix4`). */
    var localToWorld: Vec3 -> Vec3

    constructor (localToWorld: Vec3 -> Vec3)
      ensures children == [] && this.localToWorld == localToWorld
    {
      children := [];
      this.localToWorld := localToWorld;
    }

    /** `Object3D.add`: a mesh already in the group is taken out first, then it is appended.
        three.js takes the mesh out of its previous parent, which may be another group; parents
        are not modelled, so only this group's children are. */
    method Add(m: Mesh)
      modifies this`children
      ensures children == Without(old(children), m) + [m]
    {
      children := Without(children, m) + [m];
    }

    /** `Object3D.remove`: splice out the first occurrence, if any. */
    method Remove(m: Mesh)
      modifies this`children
      ensures children == Without(old(children), m)
    {
      var i := IndexOf(children, m);
      if i != -1 {
        children := children[..i] + children[i + 1..];
      }
    }
  }
}
