/**
 * The two pure pieces of the search command: recognising a floppy-drive
 * name, and building the path "(<device>)<key>" that file mode opens.
 */
module DeviceNames {
  import opened Wrappers

  /** Reading a C string at index i: past the last character lies the terminator. */
  function CharAt(s: string, i: nat): char {
    if i < |s| then s[i] else '\0'
  }

  /**
   * The floppy test of both callbacks: the name starts with 'f', 'd' and a
   * decimal digit. It is written over CharAt, as the C code reads name[0],
   * name[1] and name[2] of a terminated string; shorter names never match.
   */
  function IsFloppyName(name: string): (r: bool)
    ensures r <==> |name| >= 3 && name[0] == 'f' && name[1] == 'd' && '0' <= name[2] <= '9'
  {
    CharAt(name, 0) == 'f' && CharAt(name, 1) == 'd' &&
    '0' <= CharAt(name, 2) && CharAt(name, 2) <= '9'
  }

  /**
   * The number of bytes allocated for the path, strlen(name) + 2 + strlen(key) + 1:
   * exactly the path and its terminator.
   */
  function PathBufferLength(name: string, key: string): (n: nat)
    ensures n == |DevicePath(name, key)| + 1
  {
    |name| + 2 + |key| + 1
  }

  /**
   * The path probed in file mode: the device name in parentheses, then the
   * key.
   */
  function DevicePath(name: string, key: string): (p: string)
    ensures |p| == |name| + 2 + |key|
    ensures p[0] == '(' && p[|name| + 1] == ')'
    ensures p[1..|name| + 1] == name && p[|name| + 2..] == key
  {
    "(" + name + ")" + key
  }

  /** The first index of c in s. */
  function IndexOf(s: string, c: char): (r: Option<nat>)
    ensures r.Some? ==> r.value < |s| && s[r.value] == c && c !in s[..r.value]
    ensures r.None? ==> c !in s
  {
    if s == [] then None
    else if s[0] == c then Some(0)
    else match IndexOf(s[1..], c)
      case Some(j) => assert s[..j + 1] == [s[0]] + s[1..][..j]; Some(j + 1)
      case None => None
  }

  /**
   * How a path "(<device>)<file>" is read back: the device is everything
   * between the opening parenthesis and the first closing one.
   */
  function ParseDevicePath(p: string): Option<(string, string)> {
    if |p| == 0 || p[0] != '(' then None
    else match IndexOf(p[1..], ')')
      case Some(j) => Some((p[1..j + 1], p[j + 2..]))
      case None => None
  }

  /** The path built for a device names that device and the key, whenever the name holds no ')'. */
  lemma DevicePathParses(name: string, key: string)
    requires ')' !in name
    ensures ParseDevicePath(DevicePath(name, key)) == Some((name, key))
  {
    assert DevicePath(name, key)[1..] == name + ")" + key;
  }

  /**
   * grub_realloc of the buffer followed by grub_sprintf (buf, "(%s)%s", name, key):
   * a buffer of exactly PathBufferLength bytes holding the path and its terminator.
   */
  method FormatDevicePath(name: string, key: string) returns (buf: array<char>)
    ensures buf.Length == PathBufferLength(name, key)
    ensures buf[..buf.Length - 1] == DevicePath(name, key)
    ensures buf[buf.Length - 1] == '\0'
  {
    var len := |name| + 2 + |key| + 1;
    buf := new char[len];
    buf[0] := '(';
    var i := 0;
    while i < |name|
      invariant 0 <= i <= |name|
      invariant buf[0] == '('
      invariant forall k :: 0 <= k < i ==> buf[1 + k] == name[k]
    {
      buf[1 + i] := name[i];
      i := i + 1;
    }
    buf[|name| + 1] := ')';
    var j := 0;
    while j < |key|
      invariant 0 <= j <= |key|
      invariant buf[0] == '(' && buf[|name| + 1] == ')'
      invariant forall k :: 0 <= k < |name| ==> buf[1 + k] == name[k]
      invariant forall k :: 0 <= k < j ==> buf[|name| + 2 + k] == key[k]
    {
      buf[|name| + 2 + j] := key[j];
      j := j + 1;
    }
    buf[len - 1] := '\0';
    var p := DevicePath(name, key);
    forall k | 0 <= k < len - 1
      ensures buf[k] == p[k]
    {
      if 1 <= k < |name| + 1 {
        assert p[1..|name| + 1][k - 1] == name[k - 1];
      } else if k >= |name| + 2 {
        assert p[|name| + 2..][k - |name| - 2] == key[k - |name| - 2];
      }
    }
  }
}
