/** The cross-registration script of the Azure container-instance backend: one
    hosts-file line per container, then `exit`, joined by newlines as strings.Join does,
    and loaded into a `CommandSender` by execCommands. */
module AciScript {
  import opened Optional
  import opened AciReader

  const Newline: byte := 10

  /** The bytes of an ASCII literal. */
  function Ascii(s: string): (r: seq<byte>)
    requires forall i :: 0 <= i < |s| ==> s[i] as int < 128
    ensures |r| == |s|
    ensures forall i :: 0 <= i < |s| ==> r[i] as int == s[i] as int
  {
    seq(|s|, i requires 0 <= i < |s| => s[i] as int as byte)
  }

  const EchoPrefix: seq<byte> := Ascii("echo 127.0.0.1 ")
  const EchoSuffix: seq<byte> := Ascii(" >> /etc/hosts")
  const Exit: seq<byte> := Ascii("exit")

  /** strings.Join: the parts with `sep` between neighbours, nothing before or after. */
  function Join(parts: seq<seq<byte>>, sep: seq<byte>): seq<byte>
  {
    if |parts| == 0 then []
    else if |parts| == 1 then parts[0]
    else parts[0] + sep + Join(parts[1..], sep)
  }

  /** strings.Split(s, "\n"): the newline-separated fields of `s`; "" gives one empty field. */
  function Lines(s: seq<byte>): (r: seq<seq<byte>>)
    ensures |r| >= 1
  {
    if s == [] then [[]]
    else
      var rest := Lines(s[1..]);
      if s[0] == Newline then [[]] + rest else [[s[0]] + rest[0]] + rest[1..]
  }

  lemma {:induction false} LinesOfLine(a: seq<byte>)
    requires Newline !in a
    ensures Lines(a) == [a]
  {
    if a != [] {
      LinesOfLine(a[1..]);
      assert [a[0]] + a[1..] == a;
    }
  }

  lemma {:induction false} LinesOfLineThenRest(a: seq<byte>, b: seq<byte>)
    requires Newline !in a
    ensures Lines(a + [Newline] + b) == [a] + Lines(b)
  {
    if a == [] {
      assert a + [Newline] + b == [Newline] + b;
      assert ([Newline] + b)[1..] == b;
    } else {
      var s := a + [Newline] + b;
      assert s[1..] == a[1..] + [Newline] + b;
      LinesOfLineThenRest(a[1..], b);
      assert [a[0]] + a[1..] == a;
    }
  }

  /** Splitting the joined commands at newlines gives the commands back, provided no
      command holds a newline itself: the session sees one command per line. */
  lemma {:induction false} LinesOfJoin(parts: seq<seq<byte>>)
    requires |parts| >= 1
    requires forall i :: 0 <= i < |parts| ==> Newline !in parts[i]
    ensures Lines(Join(parts, [Newline])) == parts
  {
    if |parts| == 1 {
      LinesOfLine(parts[0]);
    } else {
      LinesOfJoin(parts[1..]);
      LinesOfLineThenRest(parts[0], Join(parts[1..], [Newline]));
      assert [parts[0]] + parts[1..] == parts;
    }
  }

  /** The joined string ends with the last part: no separator trails it. */
  lemma {:induction false} JoinEndsWithLast(parts: seq<seq<byte>>, sep: seq<byte>)
    requires |parts| >= 1
    ensures var s := Join(parts, sep); var last := parts[|parts| - 1];
      |s| >= |last| && s[|s| - |last|..] == last
  {
    if |parts| > 1 {
      JoinEndsWithLast(parts[1..], sep);
      var s := Join(parts, sep);
      var t := Join(parts[1..], sep);
      assert s == parts[0] + sep + t;
      assert s[|s| - |parts[|parts| - 1]|..] == t[|t| - |parts[|parts| - 1]|..];
    }
  }

  /** The command that registers `name` as a loopback alias in /etc/hosts. */
  function EchoLine(name: seq<byte>): seq<byte>
  {
    EchoPrefix + name + EchoSuffix
  }

  /** The name a hosts-registration line registers, if the line is one. */
  function HostsEntry(line: seq<byte>): Option<seq<byte>>
  {
    if |line| >= |EchoPrefix| + |EchoSuffix|
       && line[..|EchoPrefix|] == EchoPrefix
       && line[|line| - |EchoSuffix|..] == EchoSuffix
    then Some(line[|EchoPrefix|..|line| - |EchoSuffix|])
    else None
  }

  lemma HostsEntryOfEchoLine(name: seq<byte>)
    ensures HostsEntry(EchoLine(name)) == Some(name)
  {
  }

  lemma HostsEntryOfExit()
    ensures HostsEntry(Exit) == None
  {
  }

  /** The script built for a realized group: an echo line per container name, in order,
      then `exit`. */
  function HostScript(names: seq<seq<byte>>): seq<seq<byte>>
  {
    seq(|names|, i requires 0 <= i < |names| => EchoLine(names[i])) + [Exit]
  }

  /** The loop that builds the script, appending one line per container and then `exit`. */
  method HostCommands(names: seq<seq<byte>>) returns (commands: seq<seq<byte>>)
    ensures commands == HostScript(names)
    ensures |commands| == |names| + 1
    ensures forall i :: 0 <= i < |names| ==> HostsEntry(commands[i]) == Some(names[i])
    ensures commands[|names|] == Exit
  {
    commands := [];
    for i := 0 to |names|
      invariant |commands| == i
      invariant forall j :: 0 <= j < i ==> commands[j] == EchoLine(names[j])
    {
      commands := commands + [EchoLine(names[i])];
    }
    commands := commands + [Exit];
    forall i | 0 <= i < |names| ensures HostsEntry(commands[i]) == Some(names[i]) {
      HostsEntryOfEchoLine(names[i]);
    }
  }

  /** What the session receives, read back line by line: one hosts entry per container name
      in order, then `exit` as the last line, when no container name holds a newline. */
  lemma ScriptLines(names: seq<seq<byte>>)
    requires forall i :: 0 <= i < |names| ==> Newline !in names[i]
    ensures var lines := Lines(Join(HostScript(names), [Newline]));
      && |lines| == |names| + 1
      && (forall i :: 0 <= i < |names| ==> HostsEntry(lines[i]) == Some(names[i]))
      && lines[|names|] == Exit
      && HostsEntry(lines[|names|]) == None
  {
    var script := HostScript(names);
    forall i | 0 <= i < |script| ensures Newline !in script[i] {
      if i < |names| {
        assert script[i] == EchoPrefix + names[i] + EchoSuffix;
      }
    }
    LinesOfJoin(script);
    forall i | 0 <= i < |names| ensures HostsEntry(script[i]) == Some(names[i]) {
      HostsEntryOfEchoLine(names[i]);
    }
    HostsEntryOfExit();
  }

  /** execCommands: a reader preloaded with the commands joined by newlines. */
  method ExecCommands(commands: seq<seq<byte>>) returns (reader: CommandSender)
    ensures fresh(reader)
    ensures reader.commands == Join(commands, [Newline])
  {
    reader := new CommandSender(Join(commands, [Newline]));
  }

  /** The messages the upstream relay sends for an execCommands reader: the joined script,
      one byte per message, ending with the last command and no newline after it. */
  method InjectedMessages(commands: seq<seq<byte>>) returns (messages: seq<seq<byte>>)
    ensures Flatten(messages) == Join(commands, [Newline])
    ensures forall i :: 0 <= i < |messages| ==> |messages[i]| == 1
    ensures |commands| >= 1 ==>
      var sent, last := Flatten(messages), commands[|commands| - 1];
      |sent| >= |last| && sent[|sent| - |last|..] == last
  {
    var reader := ExecCommands(commands);
    messages := reader.Upstream();
    if |commands| >= 1 {
      JoinEndsWithLast(commands, [Newline]);
    }
  }
}
