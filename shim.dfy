/** The host-import shim: a factory that checks its configuration, and the
    shim instance it builds, whose one mutable cell is the guest memory that
    `bindInstance` sets and every import reads at call time. */
module Shim {
  import opened Messages
  import opened GuestMemory

  datatype Option<+T> = None | Some(value: T)

  datatype Result<+T> = Success(value: T) | Failure(error: string)

  /** The injected random-byte function. The bytes a call returns may differ
      from call to call, so the source is indexed by how many calls came before
      (`call`) as well as by the requested length `n`; whatever it returns is
      exactly `n` bytes long. */
  type RandomSource = f: (nat, nat) -> seq<bv8> | forall call: nat, n: nat :: |f(call, n)| == n
    witness (call: nat, n: nat) => seq(n, _ => 0 as bv8)

  /** The configuration record. `randomBytesImpl` is None when the caller gave
      no function. */
  datatype Config = Config(randomBytesImpl: Option<RandomSource>)

  /** An instantiated guest module, reduced to the memory it exports (null when
      it exports none). */
  datatype Instance = Instance(exportedMemory: array?<bv8>)

  class ShimBase {
    /** The guest memory the imports see; null until bound. */
    var memory: array?<bv8>
    /** The host's UTF-8 decoder. */
    const decode: Decoder
    /** The configured random-byte function. */
    const randomBytesImpl: RandomSource
    /** How many times `randomBytesImpl` has been called. */
    var draws: nat
    /** The messages handed to the abort handler, oldest first. */
    var aborts: seq<string>
    /** The messages sent to the coloured output utility, oldest first. */
    var output: seq<Entry>
    /** The warnings `bindInstance` emitted, oldest first. */
    var warnings: seq<string>

    /** A fresh shim: no memory bound, nothing called yet. */
    constructor (decode: Decoder, randomBytesImpl: RandomSource)
      ensures this.decode == decode && this.randomBytesImpl == randomBytesImpl
      ensures memory == null && draws == 0
      ensures aborts == [] && output == [] && warnings == []
    {
      this.decode := decode;
      this.randomBytesImpl := randomBytesImpl;
      memory := null;
      draws := 0;
      aborts := [];
      output := [];
      warnings := [];
    }

    /** `__lea_abort(line)`: the abort handler receives the formatted line, once. */
    method LeaAbort(line: int)
      modifies this`aborts
      ensures aborts == old(aborts) + [AbortMessage(line)]
    {
      aborts := aborts + [AbortMessage(line)];
    }

    /** `__lea_log(ptr, len)`: with memory bound, the `len` bytes at `ptr` are
        decoded and sent to the output in orange; with none bound, nothing
        happens. Memory is only read. */
    method LeaLog(ptr: nat, len: nat)
      requires memory != null ==> ptr + len <= memory.Length
      modifies this`output
      ensures memory == null ==> output == old(output)
      ensures memory != null ==>
        output == old(output) + [Entry(Orange, decode(memory[ptr..ptr + len]))]
    {
      if memory == null {
        return;
      }
      var m := decode(memory[ptr..ptr + len]);
      output := output + [Entry(Orange, m)];
    }

    /** `__lea_ubsen(name, filename, line, column)`: the abort handler receives,
        once, either the unknown-location message (no memory bound) or the
        message built from the two null-terminated strings and the numbers. */
    method LeaUbsen(name: nat, filename: nat, line: int, column: int)
      requires memory != null ==> HasTerminator(memory[..], name) && HasTerminator(memory[..], filename)
      modifies this`aborts
      ensures memory == null ==> aborts == old(aborts) + [UnboundUbsenMessage]
      ensures memory != null ==>
        aborts == old(aborts) + [UbsenMessage(decode(CStringBytes(memory[..], name)),
                                              decode(CStringBytes(memory[..], filename)),
                                              line, column)]
    {
      if memory == null {
        aborts := aborts + [UnboundUbsenMessage];
        return;
      }
      var nameText, _ := CString(memory, name, decode);
      var filenameText, _ := CString(memory, filename, decode);
      aborts := aborts + [UbsenMessage(nameText, filenameText, line, column)];
    }

    /** `__lea_randombytes(ptr, len)`: the request is traced in blue; then, only
        if memory is bound, the random-byte function is called once and its `len`
        bytes are copied to `ptr`, leaving every other byte of memory as it was. */
    method LeaRandomBytes(ptr: nat, len: nat)
      requires memory != null ==> ptr + len <= memory.Length
      modifies this`output, this`draws, memory
      ensures output == old(output) + [Entry(Blue, RandomBytesNotice(len))]
      ensures memory == null ==> draws == old(draws)
      ensures memory != null ==> draws == old(draws) + 1
      ensures memory != null ==>
        memory[..] == Overwrite(old(memory[..]), ptr, randomBytesImpl(old(draws), len))
    {
      output := output + [Entry(Blue, RandomBytesNotice(len))];
      if memory == null {
        return;
      }
      var bytes := randomBytesImpl(draws, len);
      draws := draws + 1;
      var mem := memory;
      ghost var before := mem[..];
      forall i | ptr <= i < ptr + len {
        mem[i] := bytes[i - ptr];
      }
      assert mem[..] == Overwrite(before, ptr, bytes);
    }

    /** `__execution_limit`: traced in blue, nothing else changes. */
    method ExecutionLimit(gasPrice: int, gasLimit: int)
      modifies this`output
      ensures output == old(output) + [Entry(Blue, ExecutionLimitNotice(gasPrice, gasLimit))]
    {
      output := output + [Entry(Blue, ExecutionLimitNotice(gasPrice, gasLimit))];
    }

    /** `__address_add`: traced in blue, nothing else changes. */
    method AddressAdd(addressData: int, addressSize: int)
      modifies this`output
      ensures output == old(output) + [Entry(Blue, AddressAddNotice(addressData, addressSize))]
    {
      output := output + [Entry(Blue, AddressAddNotice(addressData, addressSize))];
    }

    /** `__execution_stack_add`: traced in blue, nothing else changes. */
    method ExecutionStackAdd(targetIndex: int, instructionData: int, instructionSize: int)
      modifies this`output
      ensures output == old(output) +
        [Entry(Blue, ExecutionStackAddNotice(targetIndex, instructionData, instructionSize))]
    {
      output := output + [Entry(Blue, ExecutionStackAddNotice(targetIndex, instructionData, instructionSize))];
    }

    /** `bindInstance(instance)`: the memory cell becomes the instance's exported
        memory, replacing whatever was bound before; a warning is emitted when
        the instance exports none. */
    method BindInstance(instance: Instance)
      modifies this`memory, this`warnings
      ensures memory == instance.exportedMemory
      ensures warnings == old(warnings) + (if memory == null then [NoMemoryWarning] else [])
    {
      memory := instance.exportedMemory;
      if memory == null {
        warnings := warnings + [NoMemoryWarning];
      }
    }
  }

  /** `createShimBase(config)`: without a random-byte function it fails with the
      configuration error and builds nothing; otherwise it returns a fresh shim
      with no memory bound. */
  method CreateShimBase(config: Config, decode: Decoder) returns (r: Result<ShimBase>)
    ensures r.Failure? <==> config.randomBytesImpl.None?
    ensures r.Failure? ==> r.error == MissingRandomBytesError
    ensures r.Success? ==> fresh(r.value) && r.value.memory == null
    ensures r.Success? ==> r.value.randomBytesImpl == config.randomBytesImpl.value
    ensures r.Success? ==> r.value.decode == decode && r.value.draws == 0
    ensures r.Success? ==> r.value.aborts == [] && r.value.output == [] && r.value.warnings == []
  {
    if config.randomBytesImpl.None? {
      return Failure(MissingRandomBytesError);
    }
    var shim := new ShimBase(decode, config.randomBytesImpl.value);
    return Success(shim);
  }
}
