/** The texts the shim produces: what it hands to the abort handler, what it
    sends to the coloured output utility, and its warning and error texts. */
module Messages {
  import opened Decimal

  /** The four colours of the output utility: red for aborts, orange for guest
      log lines, green for success, blue for informational VM traces. */
  datatype Colour = Red | Orange | Green | Blue

  /** One message sent to the output utility. */
  datatype Entry = Entry(colour: Colour, text: string)

  /** Where the three parts of a concatenation lie in it. */
  lemma Parts(x: string, y: string, z: string)
    ensures (x + y + z)[..|x|] == x
    ensures (x + y + z)[|x|..|x| + |y|] == y
    ensures (x + y + z)[|x| + |y|..] == z
  {
  }

  /** A slice that lies inside a prefix `p` of `r` is the same slice of `p`. */
  lemma SliceInPrefix(r: string, p: string, i: nat, j: nat)
    requires |p| <= |r| && r[..|p|] == p && i <= j <= |p|
    ensures r[i..j] == p[i..j]
  {
    assert forall k :: i <= k < j ==> r[k] == r[..|p|][k];
  }

  const AbortTag: string := "[ABORT] at line "
  const UbsenTag: string := "[UBSEN] "
  const RandomBytesTag: string := "[VM] __lea_randombytes requested "
  const ExecutionLimitTag: string := "[VM] __execution_limit called with gas_price="
  const AddressAddTag: string := "[VM] __address_add called with address_data="
  const ExecutionStackAddTag: string := "[VM] __execution_stack_add called with target_index="

  /** Handed to the abort handler by `__lea_abort`: the tag, the line number,
      a newline. The line number reads back from between tag and newline. */
  function AbortMessage(line: int): (r: string)
    ensures |r| > |AbortTag| + 1 && r[..|AbortTag|] == AbortTag && r[|r| - 1] == '\n'
    ensures Denotes(r[|AbortTag|..|r| - 1], line)
  {
    var digits := IntToString(line);
    var r := AbortTag + digits + "\n";
    Parts(AbortTag, digits, "\n");
    DenotesIntToString(line);
    r
  }

  /** Handed to the abort handler by `__lea_ubsen` when no memory is bound. */
  const UnboundUbsenMessage: string := "[UBSEN] at unknown location (memory not bound)\n"

  /** Handed to the abort handler by `__lea_ubsen` when memory is bound, from
      the decoded name and file name and the line and column numbers. The name
      follows the tag verbatim; the column reads back from between the last
      colon and the closing newline. */
  function UbsenMessage(name: string, filename: string, line: int, column: int): (r: string)
    ensures |r| > |UbsenTag| + |name| && r[..|UbsenTag|] == UbsenTag
    ensures r[|UbsenTag|..|UbsenTag| + |name|] == name
    ensures |r| >= |IntToString(column)| + 2 && r[|r| - 1] == '\n'
    ensures r[|r| - 2 - |IntToString(column)|] == ':'
    ensures Denotes(r[|r| - 1 - |IntToString(column)|..|r| - 1], column)
  {
    var c := IntToString(column);
    var q := UbsenTag + name;
    var p := q + " at " + filename + ":" + IntToString(line) + ":";
    var r := p + c + "\n";
    assert q <= p;
    Parts(UbsenTag, name, []);
    Parts(p, c, "\n");
    SliceInPrefix(r, q, 0, |UbsenTag|);
    SliceInPrefix(r, q, |UbsenTag|, |UbsenTag| + |name|);
    DenotesIntToString(column);
    r
  }

  /** Traced by `__lea_randombytes` before anything else; the requested length
      reads back from between the tag and " bytes". */
  function RandomBytesNotice(len: nat): (r: string)
    ensures |r| > |RandomBytesTag| + 7 && r[..|RandomBytesTag|] == RandomBytesTag
    ensures r[|r| - 7..] == " bytes\n"
    ensures Denotes(r[|RandomBytesTag|..|r| - 7], len)
  {
    var digits := IntToString(len);
    var r := RandomBytesTag + digits + " bytes\n";
    Parts(RandomBytesTag, digits, " bytes\n");
    DenotesIntToString(len);
    r
  }

  /** Traced by `__execution_limit`; the gas price follows the tag and the gas
      limit ends the line. */
  function ExecutionLimitNotice(gasPrice: int, gasLimit: int): (r: string)
    ensures |r| > |ExecutionLimitTag| + |IntToString(gasPrice)| + |IntToString(gasLimit)|
    ensures r[..|ExecutionLimitTag|] == ExecutionLimitTag && r[|r| - 1] == '\n'
    ensures Denotes(r[|ExecutionLimitTag|..|ExecutionLimitTag| + |IntToString(gasPrice)|], gasPrice)
    ensures Denotes(r[|r| - 1 - |IntToString(gasLimit)|..|r| - 1], gasLimit)
  {
    var a, b := IntToString(gasPrice), IntToString(gasLimit);
    var p := ExecutionLimitTag + a + ", gas_limit=";
    var r := p + b + "\n";
    Parts(ExecutionLimitTag, a, ", gas_limit=");
    Parts(p, b, "\n");
    SliceInPrefix(r, p, 0, |ExecutionLimitTag|);
    SliceInPrefix(r, p, |ExecutionLimitTag|, |ExecutionLimitTag| + |a|);
    DenotesIntToString(gasPrice);
    DenotesIntToString(gasLimit);
    r
  }

  /** Traced by `__address_add`; the address pointer follows the tag and the
      address size ends the line. */
  function AddressAddNotice(addressData: int, addressSize: int): (r: string)
    ensures |r| > |AddressAddTag| + |IntToString(addressData)| + |IntToString(addressSize)|
    ensures r[..|AddressAddTag|] == AddressAddTag && r[|r| - 1] == '\n'
    ensures Denotes(r[|AddressAddTag|..|AddressAddTag| + |IntToString(addressData)|], addressData)
    ensures Denotes(r[|r| - 1 - |IntToString(addressSize)|..|r| - 1], addressSize)
  {
    var a, b := IntToString(addressData), IntToString(addressSize);
    var p := AddressAddTag + a + ", address_size=";
    var r := p + b + "\n";
    Parts(AddressAddTag, a, ", address_size=");
    Parts(p, b, "\n");
    SliceInPrefix(r, p, 0, |AddressAddTag|);
    SliceInPrefix(r, p, |AddressAddTag|, |AddressAddTag| + |a|);
    DenotesIntToString(addressData);
    DenotesIntToString(addressSize);
    r
  }

  /** Traced by `__execution_stack_add`; the target index follows the tag and
      the instruction size ends the line. */
  function ExecutionStackAddNotice(targetIndex: int, instructionData: int, instructionSize: int): (r: string)
    ensures |r| > |ExecutionStackAddTag| + |IntToString(targetIndex)| + |IntToString(instructionSize)|
    ensures r[..|ExecutionStackAddTag|] == ExecutionStackAddTag && r[|r| - 1] == '\n'
    ensures Denotes(r[|ExecutionStackAddTag|..|ExecutionStackAddTag| + |IntToString(targetIndex)|], targetIndex)
    ensures Denotes(r[|r| - 1 - |IntToString(instructionSize)|..|r| - 1], instructionSize)
  {
    var a, c := IntToString(targetIndex), IntToString(instructionSize);
    var middle := ", instruction_data=" + IntToString(instructionData) + ", instruction_size=";
    var p := ExecutionStackAddTag + a + middle;
    var r := p + c + "\n";
    Parts(ExecutionStackAddTag, a, middle);
    Parts(p, c, "\n");
    SliceInPrefix(r, p, 0, |ExecutionStackAddTag|);
    SliceInPrefix(r, p, |ExecutionStackAddTag|, |ExecutionStackAddTag| + |a|);
    DenotesIntToString(targetIndex);
    DenotesIntToString(instructionSize);
    r
  }

  /** Warned by `bindInstance` when the instance exports no memory. */
  const NoMemoryWarning: string := "Warning: WebAssembly instance has no exported memory."

  /** The configuration error raised when no random-byte function is given. */
  const MissingRandomBytesError: string :=
    "A `randomBytesImpl` function must be provided in the shim configuration."

  /** The abort message determines the line number it was made from. */
  lemma AbortMessageInjective(line1: int, line2: int)
    requires AbortMessage(line1) == AbortMessage(line2)
    ensures line1 == line2
  {
  }

  /** Number of characters after the last colon of `x` (all of `x` if it has
      none). */
  function TrailingRun(x: string): nat {
    if x == [] || x[|x| - 1] == ':' then 0 else TrailingRun(x[..|x| - 1]) + 1
  }

  lemma {:induction false} TrailingRunAfterColon(a: string, d: string)
    requires NoColon(d)
    ensures TrailingRun(a + ":" + d) == |d|
  {
    if d != [] {
      var x := a + ":" + d;
      assert x[..|x| - 1] == a + ":" + d[..|d| - 1];
      TrailingRunAfterColon(a, d[..|d| - 1]);
    }
  }

  /** If `a:d` and `b:e` are the same text and neither `d` nor `e` holds a
      colon, the split at the last colon gives the same parts. */
  lemma SplitAtLastColon(a: string, d: string, b: string, e: string)
    requires a + ":" + d == b + ":" + e
    requires NoColon(d) && NoColon(e)
    ensures a == b && d == e
  {
    var x := a + ":" + d;
    TrailingRunAfterColon(a, d);
    TrailingRunAfterColon(b, e);
    assert a == x[..|a|] == b;
    assert d == x[|a| + 1..] == e;
  }

  /** The line and column can be read back from an UBSEN message, whatever the
      name and file name are (they may themselves contain colons). */
  lemma UbsenMessageLocation(name1: string, file1: string, line1: int, column1: int,
                             name2: string, file2: string, line2: int, column2: int)
    requires UbsenMessage(name1, file1, line1, column1) == UbsenMessage(name2, file2, line2, column2)
    ensures line1 == line2 && column1 == column2
  {
    var p1, p2 := "[UBSEN] " + name1 + " at " + file1, "[UBSEN] " + name2 + " at " + file2;
    var l1, l2 := IntToString(line1), IntToString(line2);
    var c1, c2 := IntToString(column1), IntToString(column2);
    var m := UbsenMessage(name1, file1, line1, column1);
    assert m[..|m| - 1] == p1 + ":" + l1 + ":" + c1;
    assert m[..|m| - 1] == p2 + ":" + l2 + ":" + c2;
    SplitAtLastColon(p1 + ":" + l1, c1, p2 + ":" + l2, c2);
    SplitAtLastColon(p1, l1, p2, l2);
    IntToStringInjective(line1, line2);
    IntToStringInjective(column1, column2);
  }

  /** The handler can always tell the unbound UBSEN report from a located one:
      a located message ends in a digit before its newline. */
  lemma UbsenMessagesDistinct(name: string, filename: string, line: int, column: int)
    ensures UbsenMessage(name, filename, line, column) != UnboundUbsenMessage
  {
    var m := UbsenMessage(name, filename, line, column);
    var c := IntToString(column);
    assert m[|m| - 2] == c[|c| - 1];
    assert UnboundUbsenMessage[|UnboundUbsenMessage| - 2] == ')';
  }
}
