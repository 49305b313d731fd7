/** The interop layer's cached native buffer: it holds at most one array,
    hands it out again while it is long enough, and replaces it by a larger one
    otherwise. Releasing the array is recorded in a ghost log so that "freed at
    most once" can be stated. */
module UnmanagedArrays {

  class UnmanagedArray<T(0)> {
    /** The cached array, or null. */
    var arr: array?<T>
    /** The number of elements the cache believes `arr` holds. */
    var length: int
    /** Every array this cache has freed, in order. */
    ghost var released: seq<array<T>>

    /** The recorded length never claims more elements than the array has. */
    ghost predicate Valid()
      reads this
    {
      0 <= length && (arr != null ==> length <= arr.Length)
    }

    /** The state every operation but the adopting constructor keeps: no array
        means a recorded length of zero. */
    ghost predicate Consistent()
      reads this
    {
      arr == null ==> length == 0
    }

    /** The default constructor: no array, length 0. */
    constructor ()
      ensures Valid() && Consistent()
      ensures arr == null && length == 0 && released == []
    {
      arr := null;
      length := 0;
      released := [];
    }

    /** Adopts a caller-supplied array and its length unchanged. */
    constructor Adopt(instance: array?<T>, length: int)
      requires 0 <= length
      requires instance != null ==> length <= instance.Length
      ensures Valid()
      ensures arr == instance && this.length == length && released == []
    {
      arr := instance;
      this.length := length;
      released := [];
    }

    /** Returns an array of at least `n` elements: the cached one when it holds
        at least `n`, untouched; otherwise the cached array (if any) is freed and
        a fresh array of exactly `n` elements replaces it. */
    method GetArray(n: nat) returns (r: array<T>)
      requires Valid()
      modifies this
      ensures Valid() && Consistent()
      ensures r == arr && n <= length
      ensures old(arr) != null && n <= old(length) ==>
        r == old(arr) && length == old(length) && released == old(released) && r[..] == old(r[..])
      ensures old(arr) == null || old(length) < n ==>
        fresh(r) && r.Length == n && length == n &&
        released == old(released) + (if old(arr) == null then [] else [old(arr)])
      ensures old(Consistent()) ==> old(length) <= length
    {
      if arr != null && length < n {
        DeleteArray();
      }
      if arr == null {
        AllocateArray(n);
      }
      r := arr;
    }

    /** The implicit conversion: the current array, possibly null, with no
        allocation and no change of state. */
    method ToPointer() returns (r: array?<T>)
      ensures r == arr
    {
      r := arr;
    }

    /** Replaces the array reference by a fresh array of exactly `n` elements. */
    method AllocateArray(n: nat)
      modifies this
      ensures fresh(arr) && arr != null && arr.Length == n && length == n
      ensures released == old(released)
    {
      arr := new T[n];
      length := n;
    }

    /** Frees the array if there is one; does nothing otherwise. */
    method DeleteArray()
      modifies this
      ensures arr == null
      ensures old(arr) != null ==> length == 0 && released == old(released) + [old(arr)]
      ensures old(arr) == null ==> length == old(length) && released == old(released)
      ensures old(Consistent()) ==> Consistent()
    {
      if arr != null {
        released := released + [arr];
        arr := null;
        length := 0;
      }
    }

    /** The finalizer: releases through `DeleteArray`. */
    method Finalize()
      modifies this
      ensures arr == null
      ensures released == old(released) + (if old(arr) == null then [] else [old(arr)])
      ensures old(arr) != null ==> length == 0
      ensures old(arr) == null ==> length == old(length)
      ensures old(Consistent()) ==> Consistent()
    {
      DeleteArray();
    }

    /** The destructor (`Dispose`): runs the finalizer. */
    method Dispose()
      modifies this
      ensures arr == null
      ensures released == old(released) + (if old(arr) == null then [] else [old(arr)])
      ensures old(arr) != null ==> length == 0
      ensures old(arr) == null ==> length == old(length)
      ensures old(Consistent()) ==> Consistent()
    {
      Finalize();
    }
  }

  /** Disposing and then finalizing one cache frees its array at most once. */
  method DisposeThenFinalize<T(0)>(u: UnmanagedArray<T>)
    modifies u
    ensures u.arr == null
    ensures u.released == old(u.released) + (if old(u.arr) == null then [] else [old(u.arr)])
  {
    u.Dispose();
    u.Finalize();
  }

  /** Any two requests in a row: the second returns an array at least as long as
      it asked for, and the recorded length has not gone down. */
  method GrowOnly<T(0)>(u: UnmanagedArray<T>, n: nat, m: nat) returns (a: array<T>, b: array<T>)
    requires u.Valid() && u.Consistent()
    modifies u
    ensures u.Valid() && u.Consistent()
    ensures old(u.length) <= u.length && n <= u.length && m <= u.length
    ensures m <= n ==> b == a
  {
    a := u.GetArray(n);
    b := u.GetArray(m);
  }
}
