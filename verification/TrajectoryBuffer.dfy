/** The fixed-capacity ring of joint samples between planner and drive cycle. */
module TrajectoryBuffer {

  type Joints = seq<real>

  /** The `n` elements that follow index `from` in a circle. */
  function Circle(s: seq<Joints>, from: nat, n: nat): (r: seq<Joints>)
    requires from < |s| && n <= |s|
    ensures |r| == n
  {
    seq(n, i requires 0 <= i < n => s[Wrap(from + i, |s|)])
  }

  class TrajectoryBuffer {
    const storage: array<Joints>
    var readIndex: nat
    var writeIndex: nat
    var count: nat
    var highWaterMark: nat
    var totalPushed: nat
    var totalPopped: nat

    ghost predicate Valid()
      reads this
    {
      && storage.Length > 0
      && readIndex < storage.Length && count <= storage.Length
      && writeIndex == Wrap(readIndex + count, storage.Length)
      && totalPushed == totalPopped + count
      && count <= highWaterMark <= storage.Length
    }

    /** The queued samples, oldest first. */
    ghost function Contents(): (c: seq<Joints>)
      requires Valid()
      reads this, storage
      ensures |c| == count
    {
      Circle(storage[..], readIndex, count)
    }

    constructor (capacity: nat)
      requires capacity > 0
      ensures Valid() && Contents() == [] && storage.Length == capacity && fresh(storage)
      ensures totalPushed == totalPopped == highWaterMark == 0
    {
      storage := new Joints[capacity](_ => []);
      readIndex, writeIndex, count := 0, 0, 0;
      highWaterMark, totalPushed, totalPopped := 0, 0, 0;
    }

    method Reset()
      requires Valid()
      modifies this
      ensures Valid() && Contents() == [] && totalPushed == totalPopped == highWaterMark == 0
    {
      readIndex, writeIndex, count := 0, 0, 0;
      highWaterMark, totalPushed, totalPopped := 0, 0, 0;
      WrapIs(0, storage.Length);
    }

    method Push(sample: Joints) returns (ok: bool)
      requires Valid()
      modifies this, storage
      ensures Valid() && ok == (|old(Contents())| < storage.Length)
      ensures Contents() == if ok then old(Contents()) + [sample] else old(Contents())
      ensures totalPushed == old(totalPushed) + (if ok then 1 else 0) && totalPopped == old(totalPopped)
      ensures highWaterMark == if |Contents()| > old(highWaterMark) then |Contents()| else old(highWaterMark)
    {
      hide Wrap;
      if count >= storage.Length {
        return false;
      }
      CirclePush(storage[..], readIndex, count, sample);
      storage[writeIndex] := sample;
      WrapIs(readIndex + count, storage.Length);
      WrapIs(writeIndex + 1, storage.Length);
      WrapIs(readIndex + count + 1, storage.Length);
      writeIndex := Wrap(writeIndex + 1, storage.Length);
      count := count + 1;
      totalPushed := totalPushed + 1;
      if count > highWaterMark {
        highWaterMark := count;
      }
      return true;
    }

    method Pop() returns (ok: bool, sample: Joints)
      requires Valid()
      modifies this
      ensures Valid() && ok == (old(Contents()) != [])
      ensures ok ==> sample == old(Contents())[0] && Contents() == old(Contents())[1..]
      ensures !ok ==> Contents() == []
      ensures totalPopped == old(totalPopped) + (if ok then 1 else 0) && totalPushed == old(totalPushed)
      ensures highWaterMark == old(highWaterMark)
    {
      hide Wrap;
      if count == 0 {
        return false, [];
      }
      CirclePop(storage[..], readIndex, count);
      WrapIs(readIndex + 1, storage.Length);
      WrapIs(readIndex + count, storage.Length);
      WrapIs(Wrap(readIndex + 1, storage.Length) + count - 1, storage.Length);
      sample := storage[readIndex];
      readIndex := Wrap(readIndex + 1, storage.Length);
      count := count - 1;
      totalPopped := totalPopped + 1;
      return true, sample;
    }

    method Peek() returns (ok: bool, sample: Joints)
      requires Valid()
      ensures ok == (Contents() != []) && (ok ==> sample == Contents()[0])
    {
      if count == 0 {
        return false, [];
      }
      WrapIs(readIndex, storage.Length);
      return true, storage[readIndex];
    }

    function IsEmpty(): bool
      reads this
    {
      count == 0
    }

    function IsFull(): bool
      reads this
    {
      storage.Length > 0 && count >= storage.Length
    }
  }

  function Wrap(k: nat, n: nat): (r: nat)
    requires n > 0
    ensures r < n
  {
    k % n
  }

  lemma WrapIs(k: nat, n: nat)
    requires k < 2 * n
    ensures Wrap(k, n) == if k < n then k else k - n
  {
    var q := k / n;
    assert k == n * q + k % n;
    if q >= 2 {
      Twice(n, q);
    } else if q == 1 {
      assert n * q == n;
    } else {
      assert n * q == 0;
    }
  }

  lemma Twice(n: nat, q: nat)
    requires q >= 2
    ensures n * q >= 2 * n
  {}

  /** Writing behind the last element appends. */
  lemma CirclePush(s: seq<Joints>, from: nat, n: nat, x: Joints)
    requires from < |s| && n < |s|
    ensures Circle(s[Wrap(from + n, |s|) := x], from, n + 1) == Circle(s, from, n) + [x]
  {
    hide Wrap;
    WrapIs(from + n, |s|);
    forall i | 0 <= i < n
      ensures Circle(s[Wrap(from + n, |s|) := x], from, n + 1)[i] == Circle(s, from, n)[i]
    {
      WrapIs(from + i, |s|);
    }
  }

  lemma CirclePop(s: seq<Joints>, from: nat, n: nat)
    requires from < |s| && 0 < n <= |s|
    ensures Circle(s, from, n)[0] == s[from]
    ensures Circle(s, Wrap(from + 1, |s|), n - 1) == Circle(s, from, n)[1..]
  {
    hide Wrap;
    WrapIs(from, |s|);
    WrapIs(from + 1, |s|);
    forall i | 0 <= i < n - 1
      ensures Circle(s, Wrap(from + 1, |s|), n - 1)[i] == Circle(s, from, n)[1..][i]
    {
      WrapIs(from + (i + 1), |s|);
      WrapIs(Wrap(from + 1, |s|) + i, |s|);
    }
  }
}
