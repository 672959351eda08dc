/** Devices, as compiled code and interpreter see them.  What a device does is not known: every
    request takes the next of a list of answers, and is recorded together with all it could see
    of device page and memory.  Two runs that start with the same answers and make the same
    requests have dealt with the same devices. */
module Devices {
  /** The byte read, the device page and memory after the request, and what the call leaves in
      the processor's scratch registers. */
  datatype Answer = Answer(value: nat, page: seq<nat>, ram: seq<nat>, junk: seq<nat>)

  datatype Request = Request(isInput: bool, port: nat, page: seq<nat>, ram: seq<nat>)

  datatype Io = Io(page: seq<nat>, answers: seq<Answer>, log: seq<Request>) {
    ghost predicate Shaped() {
      && IsPage(page)
      && forall i :: 0 <= i < |answers| ==>
           answers[i].value < 256 && IsPage(answers[i].page) && IsMemory(answers[i].ram)
    }
  }

  ghost predicate IsPage(s: seq<nat>) {
    |s| == 256 && forall i :: 0 <= i < |s| ==> s[i] < 256
  }

  ghost predicate IsMemory(s: seq<nat>) {
    |s| == 0x1_0000 && forall i :: 0 <= i < |s| ==> s[i] < 256
  }

  datatype Reply = Silence | Reply(io: Io, ram: seq<nat>, value: nat, junk: seq<nat>)

  /** One request of one byte. */
  function Ask(io: Io, ram: seq<nat>, isInput: bool, port: nat): Reply {
    if io.answers == [] then Silence
    else
      var a := io.answers[0];
      Reply(Io(a.page, io.answers[1..], io.log + [Request(isInput, port, io.page, ram)]), a.ram, a.value, a.junk)
  }

  /** Each request uses up one answer and adds itself to what has been asked before. */
  lemma AskRecords(io: Io, ram: seq<nat>, isInput: bool, port: nat)
    requires Ask(io, ram, isInput, port).Reply?
    ensures var io' := Ask(io, ram, isInput, port).io;
      && io.log < io'.log && io'.log[|io.log|] == Request(isInput, port, io.page, ram)
      && |io'.log| == |io.log| + 1 && |io'.log| + |io'.answers| == |io.log| + |io.answers|
  {
  }

  lemma AskShaped(io: Io, ram: seq<nat>, isInput: bool, port: nat)
    requires io.Shaped() && Ask(io, ram, isInput, port).Reply?
    ensures var reply := Ask(io, ram, isInput, port);
      reply.io.Shaped() && IsMemory(reply.ram) && reply.value < 256
  {
    forall i | 0 <= i < |io.answers[1..]|
      ensures io.answers[1..][i].value < 256 && IsPage(io.answers[1..][i].page) && IsMemory(io.answers[1..][i].ram)
    {
      assert io.answers[1..][i] == io.answers[i + 1];
    }
  }
}
