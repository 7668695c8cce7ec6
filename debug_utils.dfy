/** Debugging helpers: `DebugRunnable`, a pass-through chain step that prints
    its input and output in a colour assigned round-robin, and
    `pretty_print`, which frames a message in colour. */
module DebugUtils {
  import opened Base

  // ------------------------------------------------------------ colours

  /** `DebugRunnable.COLORS`: red, green, yellow, blue, magenta, cyan. */
  const Colors: seq<string> := ["\U{1B}[31m", "\U{1B}[32m", "\U{1B}[33m", "\U{1B}[34m", "\U{1B}[35m", "\U{1B}[36m"]

  const Reset: string := "\U{1B}[0m"

  const DefaultName: string := "DebugRunnable"

  /** The colour the `n`-th auto-coloured instance gets. */
  function AutoColor(n: nat): string
  {
    Colors[n % |Colors|]
  }

  /** The colours given to a run of instances created with the colour
      arguments `requests`, starting from the class counter `start`: an
      explicit colour is kept and does not advance the counter. */
  function Assigned(start: nat, requests: seq<Option<string>>): (r: seq<string>)
    ensures |r| == |requests|
    decreases |requests|
  {
    if requests == [] then []
    else if requests[0].Some? then [requests[0].value] + Assigned(start, requests[1..])
    else [AutoColor(start)] + Assigned(start + 1, requests[1..])
  }

  /** The counter after those instances: one step per auto-coloured one. */
  function Advanced(start: nat, requests: seq<Option<string>>): nat
    decreases |requests|
  {
    if requests == [] then start
    else if requests[0].Some? then Advanced(start, requests[1..])
    else Advanced(start + 1, requests[1..])
  }

  /** Auto-coloured instances cycle through the six colours in order, from
      where the counter stood; the counter ends one further per instance. */
  lemma {:induction false} AssignedRoundRobin(start: nat, requests: seq<Option<string>>)
    requires forall i :: 0 <= i < |requests| ==> requests[i].None?
    ensures forall i :: 0 <= i < |requests| ==> Assigned(start, requests)[i] == AutoColor(start + i)
    ensures Advanced(start, requests) == start + |requests|
    decreases |requests|
  {
    if requests != [] {
      var rest := requests[1..];
      assert forall i :: 0 <= i < |rest| ==> rest[i] == requests[i + 1];
      assert requests[0].None?;
      var tail := Assigned(start + 1, rest);
      assert Assigned(start, requests) == [AutoColor(start)] + tail;
      AssignedRoundRobin(start + 1, rest);
      forall i | 1 <= i < |requests| ensures Assigned(start, requests)[i] == AutoColor(start + i) {
        assert Assigned(start, requests)[i] == tail[i - 1];
      }
    }
  }

  /** Explicit colours are given as requested and leave the counter alone. */
  lemma {:induction false} AssignedExplicit(start: nat, requests: seq<Option<string>>)
    requires forall i :: 0 <= i < |requests| ==> requests[i].Some?
    ensures forall i :: 0 <= i < |requests| ==> Assigned(start, requests)[i] == requests[i].value
    ensures Advanced(start, requests) == start
    decreases |requests|
  {
    if requests != [] {
      AssignedExplicit(start, requests[1..]);
      forall i | 1 <= i < |requests| ensures Assigned(start, requests)[i] == requests[i].value {
        assert Assigned(start, requests)[i] == Assigned(start, requests[1..])[i - 1];
        assert requests[1..][i - 1] == requests[i];
      }
    }
  }

  /** The colours repeat with period six, and instances fewer than six
      apart get different colours, so six in a row use all six. */
  lemma AutoColorPeriod(n: nat, d: nat)
    ensures AutoColor(n + 6) == AutoColor(n)
    ensures 0 < d < 6 ==> AutoColor(n) != AutoColor(n + d)
  {
    assert (n + 6) % 6 == n % 6;
    if 0 < d < 6 {
      var a, b := n % 6, (n + d) % 6;
      assert a != b;
      assert Colors[a][3] == "123456"[a] && Colors[b][3] == "123456"[b];
    }
  }

  /** `name or "DebugRunnable"` */
  function NameOr(name: Option<string>): (r: string)
    ensures r == DefaultName <==> name.None? || name.value == "" || name.value == DefaultName
    ensures name.Some? && name.value != "" ==> r == name.value
  {
    if name.None? || name.value == "" then DefaultName else name.value
  }

  /** The class attribute `_counter`, shared by every instance. */
  class ColorCounter {
    var counter: nat

    constructor()
      ensures counter == 0
    {
      counter := 0;
    }
  }

  class DebugRunnable {
    const name: string
    const color: string

    /** An instance without a colour takes the next one round-robin and
        advances the shared counter; one with a colour leaves it alone. */
    constructor(registry: ColorCounter, name: Option<string>, color: Option<string>)
      modifies registry
      ensures this.name == NameOr(name)
      ensures color.None? ==> this.color == AutoColor(old(registry.counter)) && registry.counter == old(registry.counter) + 1
      ensures color.Some? ==> this.color == color.value && registry.counter == old(registry.counter)
    {
      var c: string;
      if color.None? {
        c := Colors[registry.counter % |Colors|];
        registry.counter := registry.counter + 1;
      } else {
        c := color.value;
      }
      this.name := if name.None? || name.value == "" then DefaultName else name.value;
      this.color := c;
    }

    /** The two lines `_debug` prints for a value whose `repr` is `shown`. */
    function Lines(shown: string): seq<string>
    {
      [color + "[DEBUG] " + name + " INPUT:" + Reset + " " + shown,
       color + "[DEBUG] " + name + " OUTPUT:" + Reset + " " + shown + "\n"]
    }

    /** Both lines open with the runnable's colour, `[DEBUG]` and its name;
        the first is labelled `INPUT:`, the second `OUTPUT:`, each label is
        followed by the reset code, and past the label the two lines agree
        except for the blank line the second ends with. Both show `shown`
        at their end. */
    lemma LinesSpec(shown: string)
      ensures var r := Lines(shown);
        var head := color + "[DEBUG] " + name + " ";
        && |r| == 2
        && head <= r[0] && head <= r[1]
        && r[0][|head|..|head| + 6] == "INPUT:" && r[1][|head|..|head| + 7] == "OUTPUT:"
        && Reset <= r[0][|head| + 6..]
        && r[1][|head| + 7..] == r[0][|head| + 6..] + "\n"
        && |shown| <= |r[0]| && r[0][|r[0]| - |shown|..] == shown
    {
      var head := color + "[DEBUG] " + name + " ";
      var rest := Reset + " " + shown;
      var r := Lines(shown);
      assert r[0] == head + "INPUT:" + rest;
      assert r[1] == head + "OUTPUT:" + rest + "\n";
      assert r[0][|head|..|head| + 6] == "INPUT:";
      assert r[1][|head|..|head| + 7] == "OUTPUT:";
      assert r[0][|head| + 6..] == rest;
      assert r[1][|head| + 7..] == rest + "\n";
      assert rest[..|Reset|] == Reset;
      assert rest[|rest| - |shown|..] == shown;
      assert r[0][|r[0]| - |shown|..] == rest[|rest| - |shown|..];
    }

    /** `_debug`: passes its input through unchanged; `printed` is what it
        prints. */
    method Debug<T>(x: T, repr: T -> string) returns (result: T, printed: seq<string>)
      ensures result == x
      ensures printed == Lines(repr(x))
    {
      printed := [color + "[DEBUG] " + name + " INPUT:" + Reset + " " + repr(x)];
      result := x;
      printed := printed + [color + "[DEBUG] " + name + " OUTPUT:" + Reset + " " + repr(result) + "\n"];
    }
  }

  // ------------------------------------------------------------ pretty_print

  /** The colour names `pretty_print` knows and their bright codes. */
  const PrettyColors: map<string, string> := map[
    "red" := "\U{1B}[91m", "green" := "\U{1B}[92m", "yellow" := "\U{1B}[93m", "blue" := "\U{1B}[94m",
    "magenta" := "\U{1B}[95m", "cyan" := "\U{1B}[96m", "white" := "\U{1B}[97m", "reset" := Reset]

  /** `colors.get(color, colors["green"])` */
  function ColorCode(color: string): (r: string)
    ensures r in PrettyColors.Values
    ensures r == PrettyColors["green"] <==> color == "green" || color !in PrettyColors
  {
    if color in PrettyColors then PrettyColors[color] else PrettyColors["green"]
  }

  /** What `pretty_print` prints. */
  function PrettyText(msg: string, color: string := "green",
                      prefix: string := "=====================", suffix: string := "====================="): string
  {
    "\n\n" + ColorCode(color) + prefix + "\n" + msg + "\n" + suffix + Reset + "\n\n"
  }

  /** The frame: two blank lines and the colour code, the prefix, the
      message on lines of its own, the suffix, the reset code and two blank
      lines. An unknown colour name prints in green. */
  lemma PrettyTextSpec(msg: string, color: string, prefix: string, suffix: string)
    ensures var t := PrettyText(msg, color, prefix, suffix);
      var head := "\n\n" + ColorCode(color) + prefix + "\n";
      && t[..|head|] == head
      && t[|head|..|head| + |msg|] == msg
      && t[|head| + |msg|..] == "\n" + suffix + Reset + "\n\n"
    ensures color in PrettyColors ==> "\n\n" + PrettyColors[color] <= PrettyText(msg, color, prefix, suffix)
    ensures color !in PrettyColors ==> PrettyText(msg, color, prefix, suffix) == PrettyText(msg, "green", prefix, suffix)
  {
    var head := "\n\n" + ColorCode(color) + prefix + "\n";
    var tail := "\n" + suffix + Reset + "\n\n";
    var t := PrettyText(msg, color, prefix, suffix);
    assert t == head + msg + tail;
    assert (head + msg + tail)[..|head|] == head;
    assert (head + msg + tail)[|head|..|head| + |msg|] == msg;
    assert (head + msg + tail)[|head| + |msg|..] == tail;
    assert head[..2 + |ColorCode(color)|] == "\n\n" + ColorCode(color);
  }
}
