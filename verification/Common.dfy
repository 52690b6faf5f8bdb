/** Vocabulary shared by every module: bytes, C character arrays and C strings. */
module Common {

  type byte = b: int | 0 <= b < 256

  datatype Option<+T> = None | Some(value: T) {
    predicate IsFailure() {
      None?
    }

    function PropagateFailure<U>(): Option<U>
      requires None?
    {
      None
    }

    function Extract(): T
      requires Some?
    {
      value
    }
  }

  /** The `char x[255]` and `uint8_t x[255]` members of the protocol structs. */
  const FIELD_LEN: nat := 255

  type Field = f: seq<byte> | |f| == FIELD_LEN witness seq(FIELD_LEN, _ => 0)

  /** What `memset` leaves in such a member. */
  function ZeroField(): Field {
    seq(FIELD_LEN, _ => 0)
  }

  /** `buff_read` into the front of a member: the bytes behind `src` keep their old values. */
  function Blit(f: Field, src: seq<byte>): Field
    requires |src| <= FIELD_LEN
  {
    src + f[|src|..]
  }

  /** The C string stored in `f`: everything before its first NUL. */
  function CString(f: seq<byte>): (s: seq<byte>)
    ensures |s| <= |f| && s == f[..|s|]
    ensures forall i :: 0 <= i < |s| ==> s[i] != 0
    ensures |s| < |f| ==> f[|s|] == 0
  {
    if f == [] || f[0] == 0 then [] else [f[0]] + CString(f[1..])
  }

  /** The C string of `f` is the only string that is a prefix of it, has no NUL, and is followed by one. */
  lemma CStringIs(f: seq<byte>, s: seq<byte>)
    ensures CString(f) == s <==>
      && |s| <= |f| && f[..|s|] == s
      && (forall i :: 0 <= i < |s| ==> s[i] != 0)
      && (|s| < |f| ==> f[|s|] == 0)
  {
    var c := CString(f);
    if |s| <= |f| && f[..|s|] == s {
      assert |s| < |c| ==> f[|s|] == c[|s|];
      assert |c| < |s| ==> f[|c|] == s[|c|];
    }
  }

  /** A string short of a zeroed member's length is read back as if it stood alone. */
  lemma CStringOfBlit(s: seq<byte>)
    requires |s| < FIELD_LEN
    ensures CString(Blit(ZeroField(), s)) == CString(s)
  {
    var f, c := Blit(ZeroField(), s), CString(s);
    assert f[..|c|] == s[..|c|] == c;
    assert f[|c|] == 0 by {
      if |c| == |s| {
        assert f[|s|] == ZeroField()[|s|..][0];
      } else {
        assert f[|c|] == s[|c|];
      }
    }
    CStringIs(f, c);
  }

  /** Behind a string without NUL the old bytes are read on. */
  lemma CStringReadsOn(f: Field, s: seq<byte>)
    requires |s| <= FIELD_LEN && forall i :: 0 <= i < |s| ==> s[i] != 0
    ensures CString(Blit(f, s)) == s + CString(f[|s|..])
  {
    CStringIs(Blit(f, s), s + CString(f[|s|..]));
  }

  /** Over a member that holds `name`, `s` is read as `name` when it is that string or a prefix of it. */
  lemma CStringOverItself(f: Field, s: seq<byte>, name: seq<byte>)
    requires |s| <= FIELD_LEN && CString(f) == name
    ensures CString(Blit(f, s)) == name <==> CString(s) == name || s <= name
  {
    CStringIs(Blit(f, s), name);
    CStringIs(s, name);
    if |s| <= |name| {
      assert Blit(f, s)[..|name|] == s + f[|s|..|name|];
    } else {
      assert Blit(f, s)[..|name|] == s[..|name|];
    }
  }

  /** The bytes of an ASCII literal. */
  function Ascii(s: string): (b: seq<byte>)
    ensures |b| == |s| && forall i :: 0 <= i < |s| ==> b[i] == s[i] as int % 256
  {
    seq(|s|, i requires 0 <= i < |s| => (s[i] as int) % 256)
  }
}
