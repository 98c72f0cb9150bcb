/** Clients of the shim that follow its documented lifecycle: construct, bind
    the instance's memory, then let the guest call the imports. What they
    ensure follows from the shim's contracts alone. */
module Lifecycle {
  import opened GuestMemory
  import opened Messages
  import opened Shim

  /** Bind a 64-byte memory holding "Hi\0" at offset 10: reading the C string
      there gives the decoding of "Hi". */
  method BindThenReadString(decode: Decoder, source: RandomSource) returns (text: string)
    ensures text == decode([72, 105])
  {
    var r := CreateShimBase(Config(Some(source)), decode);
    var shim := r.value;
    var mem := new bv8[64](_ => 0);
    mem[10], mem[11], mem[12] := 72, 105, 0;
    shim.BindInstance(Instance(mem));
    CStringBytesOf(mem[..], 10, [72, 105]);
    ghost var probed;
    text, probed := CString(shim.memory, 10, decode);
  }

  /** Bind a 64-byte memory and request 8 random bytes at offset 0: exactly the
      eight bytes of the provider's first call land there, and the byte after
      them is untouched. */
  method BindThenFill(decode: Decoder, source: RandomSource) returns (head: seq<bv8>, next: bv8)
    ensures head == source(0, 8)
    ensures next == 0
  {
    var r := CreateShimBase(Config(Some(source)), decode);
    var shim := r.value;
    var mem := new bv8[64](_ => 0);
    shim.BindInstance(Instance(mem));
    shim.LeaRandomBytes(0, 8);
    head := mem[..8];
    next := mem[8];
  }

  /** Before any binding the UBSEN import reports an unknown location and a
      random-byte request never reaches the provider. */
  method ImportsBeforeBinding(decode: Decoder, source: RandomSource) returns (report: string, draws: nat)
    ensures report == UnboundUbsenMessage
    ensures draws == 0
  {
    var shim := new ShimBase(decode, source);
    shim.LeaUbsen(0, 0, 1, 1);
    report := shim.aborts[0];
    shim.LeaRandomBytes(0, 4);
    draws := shim.draws;
  }

  /** After binding two instances in turn, a random-byte request writes into
      the memory bound last and leaves the earlier one alone. */
  method LastBindingWins(decode: Decoder, source: RandomSource) returns (first: seq<bv8>, second: seq<bv8>)
    ensures first == [0, 0, 0, 0]
    ensures second == source(0, 4)
  {
    var shim := new ShimBase(decode, source);
    var a := new bv8[4](_ => 0);
    var b := new bv8[4](_ => 0);
    assert a[..] == [0, 0, 0, 0];
    shim.BindInstance(Instance(a));
    shim.BindInstance(Instance(b));
    shim.LeaRandomBytes(0, 4);
    assert b[..] == b[..][0..4];
    first := a[..];
    second := b[..];
  }
}
