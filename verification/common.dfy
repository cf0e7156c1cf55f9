/** Vocabulary shared by the modules of the model: bytes, optional values,
    3-vectors and 4×4 matrices as plain values, GPU buffer handles and the
    allocator that hands them out, and the `rfind` search on strings. */
module Common {

  type Byte = bv8

  datatype Option<T> = None | Some(value: T)

  /** `nvmath::vec3f`; floats are modelled as reals. */
  datatype Vec3 = Vec3(x: real, y: real, z: real)

  /** `vec3f(s)`: the vector with every component `s`. */
  function Splat(s: real): Vec3 {
    Vec3(s, s, s)
  }

  /** Component-wise `a + b`. */
  function Plus(a: Vec3, b: Vec3): Vec3 {
    Vec3(a.x + b.x, a.y + b.y, a.z + b.z)
  }

  /** Component-wise `a - b`. */
  function Minus(a: Vec3, b: Vec3): Vec3 {
    Vec3(a.x - b.x, a.y - b.y, a.z - b.z)
  }

  /** `nvmath::mat4f`, sixteen entries. The model never computes with a matrix;
      it only stores, copies and compares them. */
  datatype Mat4 = Mat4(entries: seq<real>)

  /** `nvmath::mat4f(1)` and `mat4f().identity()`. */
  const Identity: Mat4 := Mat4([1.0, 0.0, 0.0, 0.0,
                                0.0, 1.0, 0.0, 0.0,
                                0.0, 0.0, 1.0, 0.0,
                                0.0, 0.0, 0.0, 1.0])

  /** An `nvvk::Buffer`: only its identity matters here. */
  datatype Buffer = Buffer(id: nat)

  /** The device allocator (`nvvk::Allocator`), reduced to the buffers it has
      created and the buffers it has been asked to destroy, in order. */
  class Allocator {
    var created: seq<Buffer>
    var released: seq<Buffer>

    constructor()
      ensures created == [] && released == []
    {
      created, released := [], [];
    }

    method CreateBuffer() returns (b: Buffer)
      modifies this`created
      ensures b == Buffer(|old(created)|)
      ensures created == old(created) + [b]
    {
      b := Buffer(|created|);
      created := created + [b];
    }

    method Destroy(b: Buffer)
      modifies this`released
      ensures released == old(released) + [b]
    {
      released := released + [b];
    }
  }

  lemma MulStep(n: nat, a: nat)
    requires n > 0
    ensures (n - 1) * a + a == n * a
  {
  }

  lemma MulMono(m: nat, n: nat, a: nat)
    requires m <= n
    ensures m * a <= n * a
  {
  }

  /** The offset of record `g` when records are `a` bytes long, `g·a`, written
      as repeated addition so that reasoning about the layout stays linear. */
  function Off(g: nat, a: nat): nat
  {
    if g == 0 then 0 else Off(g - 1, a) + a
  }

  lemma {:induction false} OffIsProduct(g: nat, a: nat)
    ensures Off(g, a) == g * a
  {
    if g > 0 {
      OffIsProduct(g - 1, a);
      MulStep(g, a);
    }
  }

  /** Records do not overlap: record `g` ends before record `n` when `g < n`. */
  lemma {:induction false} OffMono(g: nat, n: nat, a: nat)
    requires g < n
    ensures Off(g, a) + a <= Off(n, a)
  {
    if g < n - 1 {
      OffMono(g, n - 1, a);
    }
  }

  /** `memcpy` of `src` into `dst` at `off`: the bytes outside the copied range are kept. */
  function Copy(dst: seq<Byte>, off: nat, src: seq<Byte>): (r: seq<Byte>)
    requires off + |src| <= |dst|
    ensures |r| == |dst|
  {
    dst[..off] + src + dst[off + |src|..]
  }

  /** Byte `i` after a copy: from the source inside the copied range, from the
      destination outside it. */
  lemma CopyAt(dst: seq<Byte>, off: nat, src: seq<Byte>, i: nat)
    requires off + |src| <= |dst| && i < |dst|
    ensures Copy(dst, off, src)[i] == if off <= i < off + |src| then src[i - off] else dst[i]
  {
  }

  /** `memcpy(dst + dstOff, src + srcOff, count)`. */
  method Memcpy(dst: array<Byte>, dstOff: nat, src: seq<Byte>, srcOff: nat, count: nat)
    requires dstOff + count <= dst.Length && srcOff + count <= |src|
    modifies dst
    ensures dst[..] == Copy(old(dst[..]), dstOff, src[srcOff..srcOff + count])
  {
    forall k | 0 <= k < count {
      dst[dstOff + k] := src[srcOff + k];
    }
    forall i | 0 <= i < dst.Length
      ensures dst[i] == Copy(old(dst[..]), dstOff, src[srcOff..srcOff + count])[i]
    {
      CopyAt(old(dst[..]), dstOff, src[srcOff..srcOff + count], i);
    }
  }

  /** `std::string::rfind(c)` / `strrchr`: the index of the last occurrence of
      `c` in `s`, or None when `c` does not occur. */
  function RFind(s: string, c: char): (r: Option<nat>)
    ensures r.None? <==> c !in s
    ensures r.Some? ==> r.value < |s| && s[r.value] == c && c !in s[r.value + 1..]
  {
    if s == [] then None
    else if s[|s| - 1] == c then Some(|s| - 1)
    else
      var r := RFind(s[..|s| - 1], c);
      assert s == s[..|s| - 1] + [s[|s| - 1]];
      r
  }

  /** The index just past the last `c` in `s`, 0 when there is none: the
      start of what follows the last separator. */
  function AfterLast(s: string, c: char): (k: nat)
    ensures k <= |s|
    ensures c !in s[k..]
    ensures k > 0 ==> s[k - 1] == c
  {
    match RFind(s, c)
    case None => 0
    case Some(i) => i + 1
  }
}
