/** The character device with a resumable read cursor, and the program that reads it byte by byte. */
module CharDevice {
  import opened Bytes

  const BUF_LEN := 80
  const EBUSY := 16

  /** Octets before the first NUL of a buffer from `i` on, or to its end. */
  function Text(b: seq<byte>, i: nat): (s: seq<byte>)
    requires i <= |b|
    ensures i + |s| <= |b| && s == b[i..i + |s|] && 0 !in s
    ensures i + |s| < |b| ==> b[i + |s|] == 0
    decreases |b| - i
  {
    if i == |b| || b[i] == 0 then []
    else
      var t := Text(b, i + 1);
      assert b[i..i + 1 + |t|] == [b[i]] + b[i + 1..i + 1 + |t|];
      [b[i]] + t
  }

  /** The text from `i` on ends with a NUL inside the buffer. */
  ghost predicate Terminated(b: seq<byte>, i: nat)
    requires i <= |b|
  {
    i + |Text(b, i)| < |b|
  }

  lemma {:induction false} TerminatedEarlier(b: seq<byte>, i: nat)
    requires i <= |b| && Terminated(b, i)
    ensures Terminated(b, 0)
  {
  }

  lemma {:induction false} TextStep(b: seq<byte>, i: nat, out: seq<byte>)
    requires i < |b| && b[i] != 0
    ensures out + Text(b, i) == (out + [b[i]]) + Text(b, i + 1)
    ensures |Text(b, i)| == 1 + |Text(b, i + 1)|
  {
  }

  lemma {:induction false} TextIs(b: seq<byte>, i: nat, s: seq<byte>)
    requires i + |s| < |b| && b[i..i + |s|] == s && 0 !in s && b[i + |s|] == 0
    ensures Text(b, i) == s
  {
  }

  /** What `strncpy_from_user` leaves in the device buffer: the string with its NUL if that fits, else
      the first BUF_LEN octets. The rest keeps its old contents. */
  function CopyIn(msg: seq<byte>, user: seq<byte>): (r: seq<byte>)
    requires |msg| == BUF_LEN && 0 !in user
    ensures |r| == BUF_LEN
  {
    if |user| < BUF_LEN then user + [0] + msg[|user| + 1..] else user[..BUF_LEN]
  }

  /** The buffer is terminated by a copy exactly when the string is at most 79 octets long; then it
      holds the string. */
  lemma {:induction false} CopyInTerminated(msg: seq<byte>, user: seq<byte>)
    requires |msg| == BUF_LEN && 0 !in user
    ensures Terminated(CopyIn(msg, user), 0) <==> |user| <= 79
    ensures |user| < BUF_LEN ==> Text(CopyIn(msg, user), 0) == user
    ensures forall k :: 0 <= k < 80 ==>
              CopyIn(msg, user)[k] == if k < |user| then user[k] else if k == |user| then 0 else msg[k]
  {
    var r := CopyIn(msg, user);
    if |user| < BUF_LEN {
      assert r[|user|] == 0;
      assert r[..|user|] == user;
      TextIs(r, 0, user);
    } else if Terminated(r, 0) {
      assert false;
    }
  }

  class Device {
    var deviceOpen: int
    var msg: seq<byte>
    var msgPtr: nat

    /** The buffer is terminated and the cursor is on its text or its terminator. */
    ghost predicate Valid()
      reads this
    {
      |msg| == BUF_LEN && msgPtr < BUF_LEN && Terminated(msg, msgPtr)
    }

    /** What the readers have not seen yet. */
    ghost function Unread(): (s: seq<byte>)
      requires msgPtr <= |msg|
      reads this
    {
      Text(msg, msgPtr)
    }

    constructor ()
      ensures Valid() && deviceOpen == 0 && Unread() == []
    {
      deviceOpen, msgPtr := 0, 0;
      msg := seq(BUF_LEN, i => 0);
    }

    method Open() returns (ret: int)
      requires Valid()
      modifies this
      ensures msg == old(msg)
      ensures old(deviceOpen) != 0 ==> ret == -EBUSY && deviceOpen == old(deviceOpen) && msgPtr == old(msgPtr)
      ensures old(deviceOpen) == 0 ==> ret == 0 && deviceOpen == 1 && msgPtr == 0
      ensures Valid()
    {
      if deviceOpen != 0 {
        return -EBUSY;
      }
      TerminatedEarlier(msg, msgPtr);
      deviceOpen := deviceOpen + 1;
      msgPtr := 0;
      ret := 0;
    }

    method Release() returns (ret: int)
      requires Valid()
      modifies this
      ensures Valid() && ret == 0 && deviceOpen == old(deviceOpen) - 1 && msg == old(msg) && msgPtr == old(msgPtr)
    {
      deviceOpen := deviceOpen - 1;
      ret := 0;
    }

    /** `device_read`: the next octets of the text, at most `length` of them. */
    method Read(length: nat) returns (out: seq<byte>)
      requires Valid()
      modifies this`msgPtr
      ensures Valid()
      ensures |out| == if length < |old(Unread())| then length else |old(Unread())|
      ensures old(Unread()) == out + Unread()
    {
      out := [];
      var left: nat := length;
      ghost var all := Unread();
      while left != 0 && msg[msgPtr] != 0
        invariant Valid() && left + |out| == length && all == out + Unread()
        decreases left
      {
        TextStep(msg, msgPtr, out);
        out := out + [msg[msgPtr]];
        msgPtr := msgPtr + 1;
        left := left - 1;
      }
    }

    /** `device_write`; its length argument is not used. */
    method Write(user: seq<byte>) returns (ret: int)
      requires |msg| == BUF_LEN && 0 !in user
      modifies this`msg, this`msgPtr
      ensures msg == CopyIn(old(msg), user) && msgPtr == 0
      ensures Valid() <==> |user| < BUF_LEN
      ensures |user| < BUF_LEN ==> Unread() == user
      ensures ret == if |user| < BUF_LEN then |user| else BUF_LEN
    {
      CopyInTerminated(msg, user);
      msg := CopyIn(msg, user);
      msgPtr := 0;
      ret := if |user| < BUF_LEN then |user| else BUF_LEN;
    }

    /** IOCTL_SET_MSG copies the string twice, to the same effect. */
    method SetMsg(user: seq<byte>)
      requires |msg| == BUF_LEN && 0 !in user
      modifies this`msg, this`msgPtr
      ensures msg == CopyIn(old(msg), user) && msgPtr == 0
      ensures Valid() <==> |user| < BUF_LEN
    {
      msg := CopyIn(msg, user);
      assert CopyIn(msg, user) == msg;
      var i := Write(user);
    }

    /** IOCTL_GET_MSG: everything unread, with a NUL. */
    method GetMsg() returns (out: seq<byte>)
      requires Valid()
      modifies this`msgPtr
      ensures Valid() && out == old(Unread()) + [0] && Unread() == []
    {
      out := Read(99);
      assert |out| < 99;
      assert Unread() == [];
      out := out + [0];
    }

    /** Any sequence of reads concatenates to a prefix of the message that reaches its end as soon as
        enough octets were asked for. */
    method ReadMany(lengths: seq<nat>) returns (out: seq<byte>)
      requires Valid()
      modifies this`msgPtr
      ensures Valid() && old(Unread()) == out + Unread()
      ensures |out| == if Sum(lengths) < |old(Unread())| then Sum(lengths) else |old(Unread())|
    {
      out := [];
      ghost var all := Unread();
      for i := 0 to |lengths|
        invariant Valid() && all == out + Unread()
        invariant |out| == if Sum(lengths[..i]) < |all| then Sum(lengths[..i]) else |all|
      {
        SumStep(lengths, i);
        var more := Read(lengths[i]);
        out := out + more;
      }
      assert lengths[..|lengths|] == lengths;
    }

    /** `ioctl_get_nth_byte`: collects octets until the terminator, but takes an octet of 128 or more,
        negative as a `char`, for an error. So it collects the message exactly when that is ASCII, and
        otherwise stops in front of the first other octet. */
    method GetNthByte() returns (out: seq<byte>, failed: bool)
      requires |msg| == BUF_LEN && Terminated(msg, 0)
      ensures out <= Text(msg, 0) && Ascii(out)
      ensures !failed <==> out == Text(msg, 0)
      ensures !failed <==> Ascii(Text(msg, 0))
      ensures forall k :: 0 <= k < |out| ==> out[k] < 128
      ensures failed ==> |out| < |Text(msg, 0)| && Text(msg, 0)[|out|] >= 128
    {
      out, failed := [], false;
      ghost var text := Text(msg, 0);
      var i := 0;
      while msg[i] != 0 && !failed
        invariant 0 <= i <= |text| < BUF_LEN && out == text[..i] && Ascii(out)
        invariant failed ==> i < |text| && text[i] >= 128
        decreases |text| - i, !failed
      {
        assert text[i] == msg[i];
        if msg[i] >= 128 {
          failed := true;
        } else {
          assert text[..i + 1] == text[..i] + [text[i]];
          out := out + [msg[i]];
          i := i + 1;
        }
      }
    }
  }

  predicate Ascii(s: seq<byte>) {
    forall i :: 0 <= i < |s| ==> s[i] < 128
  }

  function Sum(s: seq<nat>): (n: nat) {
    if s == [] then 0 else Sum(s[..|s| - 1]) + s[|s| - 1]
  }

  lemma {:induction false} SumStep(s: seq<nat>, i: nat)
    requires i < |s|
    ensures Sum(s[..i + 1]) == Sum(s[..i]) + s[i]
  {
    assert s[..i + 1][..i] == s[..i];
  }
}
