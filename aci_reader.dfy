/** The `commandSender` reader of the Azure container-instance backend and the
    upstream half of its exec relay, seen as a sequential consumer of that reader.
    A Go string is a sequence of bytes, so the pending commands are a `seq<byte>`. */
module AciReader {

  newtype byte = b: int | 0 <= b < 256

  function Min(a: int, b: int): int
  {
    if a <= b then a else b
  }

  /** The concatenation of all chunks, in order. */
  function Flatten(chunks: seq<seq<byte>>): (s: seq<byte>)
  {
    if chunks == [] then [] else Flatten(chunks[..|chunks| - 1]) + chunks[|chunks| - 1]
  }

  lemma FlattenAppend(chunks: seq<seq<byte>>, c: seq<byte>)
    ensures Flatten(chunks + [c]) == Flatten(chunks) + c
  {
    assert (chunks + [c])[..|chunks|] == chunks;
  }

  /** An io.Reader that hands out the pending `commands` string and then reports EOF. */
  class CommandSender {
    var commands: seq<byte>

    constructor (commands: seq<byte>)
      ensures this.commands == commands
    {
      this.commands := commands;
    }

    /** One call of Read(p): copies at most len(p) pending bytes into p and keeps the rest;
        with nothing pending it returns (0, io.EOF). `eof` stands for the io.EOF error. */
    method Read(p: array<byte>) returns (n: nat, eof: bool)
      modifies this, p
      ensures eof <==> old(commands) == []
      ensures eof ==> n == 0 && commands == old(commands) && p[..] == old(p[..])
      ensures !eof ==> n == Min(p.Length, |old(commands)|)
      ensures n <= p.Length && n <= |old(commands)|
      ensures p[..n] == old(commands)[..n]
      ensures p[n..] == old(p[n..])
      ensures commands == old(commands)[n..]
    {
      if |commands| == 0 {
        return 0, true;
      }
      var command: seq<byte>;
      if p.Length >= |commands| {
        command := commands;
        commands := [];
      } else {
        command := commands[..p.Length];
        commands := commands[p.Length..];
      }
      // copy(p, command): command is never longer than p
      forall k | 0 <= k < |command| {
        p[k] := command[k];
      }
      n, eof := |command|, false;
    }

    /** A client that calls Read with one buffer of `size` bytes until EOF, keeping the
        filled part of the buffer after each call: the chunks give back the string. */
    method ReadAll(size: nat) returns (chunks: seq<seq<byte>>)
      requires size >= 1
      modifies this
      ensures commands == []
      ensures Flatten(chunks) == old(commands)
      ensures forall i :: 0 <= i < |chunks| ==> 1 <= |chunks[i]| <= size
    {
      var p := new byte[size];
      chunks := [];
      while true
        invariant Flatten(chunks) + commands == old(commands)
        invariant forall i :: 0 <= i < |chunks| ==> 1 <= |chunks[i]| <= size
        decreases |commands|
      {
        ghost var before := commands;
        var n, eof := Read(p);
        if eof {
          break;
        }
        assert commands == before[n..];
        var chunk := p[..n];
        assert chunk == before[..n];
        assert before == chunk + commands;
        FlattenAppend(chunks, chunk);
        chunks := chunks + [chunk];
      }
    }

    /** The upstream loop of the exec relay, run to completion without the network: a
        fresh one-byte buffer per Read, one message per byte read, stop at EOF. */
    method Upstream() returns (messages: seq<seq<byte>>)
      modifies this
      ensures commands == []
      ensures Flatten(messages) == old(commands)
      ensures |messages| == |old(commands)|
      ensures forall i :: 0 <= i < |messages| ==> |messages[i]| == 1
    {
      messages := [];
      while true
        invariant Flatten(messages) + commands == old(commands)
        invariant |messages| + |commands| == |old(commands)|
        invariant forall i :: 0 <= i < |messages| ==> |messages[i]| == 1
        decreases |commands|
      {
        ghost var before := commands;
        var buffer := new byte[1];
        var n, eof := Read(buffer);
        if eof {
          break;
        }
        assert n == 1 && commands == before[1..];
        if n > 0 {
          var message := buffer[..];
          assert message == before[..1];
          assert before == message + commands;
          FlattenAppend(messages, message);
          messages := messages + [message];
        }
      }
    }
  }
}
