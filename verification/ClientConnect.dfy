// Connecting a Codex client and taking the connection back (previewConnection,
// applyConnection and rollbackConnection in scripts/client-connect.ts, the branch that
// appends a managed block to a TOML file). A digest is the text it was made of; whether a
// text is valid TOML and whether it already has a Helm table are parameters. Every
// operation may stop before any of its file operations, and the file may be edited by
// somebody else between its two reads.
module ClientConnect {
  import opened JsonValues
  import Texts
  import opened TextSearch

  const BEGIN := "# BEGIN HELM MANAGED CONNECTION"
  const END := "# END HELM MANAGED CONNECTION"

  type Toml = string -> bool

  // ---- The block --------------------------------------------------------------------------

  function HexDigit(n: nat): char
    requires n < 16
  {
    "0123456789abcdef"[n]
  }

  // JSON.stringify of one character of a string.
  function Escape(c: char): string {
    if c == '"' then "\\\""
    else if c == '\\' then "\\\\"
    else if c == '\U{08}' then "\\b"
    else if c == '\U{0C}' then "\\f"
    else if c == '\n' then "\\n"
    else if c == '\r' then "\\r"
    else if c == '\t' then "\\t"
    else if c < ' ' then "\\u00" + [HexDigit(c as int / 16), HexDigit(c as int % 16)]
    else [c]
  }

  function Escaped(s: string): string {
    if s == "" then "" else Escape(s[0]) + Escaped(s[1..])
  }

  function Quoted(s: string): string {
    "\"" + Escaped(s) + "\""
  }

  const PROVIDER := "[model_providers.helm]\n" + "name = \"Helm\"\n" + "base_url = "
  const KEYS := "\nwire_api = \"responses\"\n" + "env_key = \"HELM_API_KEY\"\n"
  const PROFILE := "\n[profiles.helm]\n" + "model_provider = \"helm\"\n" + "model = "
  const WIRE := KEYS + PROFILE

  function Block(origin: string, model: string): string {
    "\n" + BEGIN + "\n" + PROVIDER + Quoted(origin + "/v1") + WIRE + Quoted(model) + "\n" + END + "\n"
  }

  datatype Plan = Plan(before: string, block: string)

  datatype Receipt = Receipt(plan: Plan, after: string)

  datatype PreviewError = InvalidLane | InvalidToml | AlreadyConnected

  predicate ValidLane(model: string) {
    Texts.Trim(model) != "" && '\r' !in model && '\n' !in model && '\0' !in model
  }

  function PreviewConnection(text: string, origin: string, model: string, valid: Toml, hasHelm: Toml)
    : Result<Plan, PreviewError>
  {
    if !ValidLane(model) then Err(InvalidLane)
    else if !valid(text) then Err(InvalidToml)
    else if Includes(text, BEGIN) || hasHelm(text) then Err(AlreadyConnected)
    else if !valid(text + Block(origin, model)) then Err(InvalidToml)
    else Ok(Plan(text, Block(origin, model)))
  }

  // ---- The operations -----------------------------------------------------------------------

  datatype Files = Files(config: string, receipt: Option<Receipt>)

  datatype Outcome = Done | Refused | Interrupted

  // `stop` file operations succeed; the one after them fails. `edit` is what somebody else
  // writes between the two reads of the config.
  datatype Faults = Faults(stop: nat, edit: Option<string>)

  const ALL_STEPS: nat := 5
  const NO_FAULTS := Faults(ALL_STEPS, None)

  function Edited(f: Files, faults: Faults): Files {
    f.(config := faults.edit.GetOr(f.config))
  }

  function Applied(f: Files, plan: Plan, valid: Toml, faults: Faults): (Files, Outcome) {
    var next := f.config + plan.block;
    if faults.stop < 2 then (f, Interrupted)                     // two reads
    else if f.receipt.Some? then
      (f, if f.receipt.value.after == f.config && f.receipt.value.plan == plan then Done else Refused)
    else if f.config != plan.before || !valid(next) then (f, Refused)
    else if faults.stop < 3 then (f, Interrupted)                // the receipt
    else
      var g := Edited(f.(receipt := Some(Receipt(plan, next))), faults);
      if faults.stop < 4 then (g, Interrupted)                   // the second read
      else if g.config != plan.before then (g, Refused)
      else if faults.stop < 5 then (g, Interrupted)              // the config
      else (g.(config := next), Done)
  }

  predicate Managed(config: string, block: string) {
    Includes(config, block) && Occurrences(config, BEGIN) == 1
  }

  function RolledBack(f: Files, valid: Toml, faults: Faults): (Files, Outcome) {
    if faults.stop < 1 then (f, Interrupted)
    else if f.receipt.None? then (f, Refused)
    else
      var plan := f.receipt.value.plan;
      var next := WithoutFirst(f.config, plan.block);
      if faults.stop < 2 then (f, Interrupted)                   // the read
      else if f.config == plan.before then
        if faults.stop < 3 then (f, Interrupted) else (f.(receipt := None), Done)
      else if !valid(f.config) || !Managed(f.config, plan.block) || !valid(next) then (f, Refused)
      else
        var g := Edited(f, faults);
        if faults.stop < 3 then (g, Interrupted)                 // the second read
        else if g.config != f.config then (g, Refused)
        else if faults.stop < 4 then (g, Interrupted)            // the config
        else if faults.stop < 5 then (g.(config := next), Interrupted)   // the receipt
        else (Files(next, None), Done)
  }

  class Connection {
    var config: string
    var receipt: Option<Receipt>

    ghost function View(): Files
      reads this
    {
      Files(config, receipt)
    }

    constructor (text: string)
      ensures View() == Files(text, None)
    {
      config, receipt := text, None;
    }

    method Apply(plan: Plan, valid: Toml, faults: Faults) returns (outcome: Outcome)
      modifies this
      ensures (View(), outcome) == Applied(old(View()), plan, valid, faults)
    {
      if faults.stop < 2 { return Interrupted; }
      var current := config;
      if receipt.Some? {
        if receipt.value.after == current && receipt.value.plan == plan { return Done; }
        return Refused;
      }
      if current != plan.before { return Refused; }
      var next := current + plan.block;
      if !valid(next) { return Refused; }
      if faults.stop < 3 { return Interrupted; }
      receipt := Some(Receipt(plan, next));
      if faults.edit.Some? { config := faults.edit.value; }
      if faults.stop < 4 { return Interrupted; }
      if config != plan.before { return Refused; }
      if faults.stop < 5 { return Interrupted; }
      config := next;
      return Done;
    }

    method Rollback(valid: Toml, faults: Faults) returns (outcome: Outcome)
      modifies this
      ensures (View(), outcome) == RolledBack(old(View()), valid, faults)
    {
      hide Managed, WithoutFirst;
      if faults.stop < 1 { return Interrupted; }
      if receipt.None? { return Refused; }
      var plan := receipt.value.plan;
      if faults.stop < 2 { return Interrupted; }
      var current := config;
      if current == plan.before {
        if faults.stop < 3 { return Interrupted; }
        receipt := None;
        return Done;
      }
      if !valid(current) || !Managed(current, plan.block) { return Refused; }
      var next := WithoutFirst(current, plan.block);
      if !valid(next) { return Refused; }
      if faults.edit.Some? { config := faults.edit.value; }
      if faults.stop < 3 { return Interrupted; }
      if config != current { return Refused; }
      if faults.stop < 4 { return Interrupted; }
      config := next;
      if faults.stop < 5 { return Interrupted; }
      receipt := None;
      return Done;
    }
  }

  // ---- How often the begin marker is in a block --------------------------------------------

  // An escaped character and everything in its escape are foreign to the marker.
  lemma EscapesAreForeign(c: char)
    ensures Escape(c) == [c] || (c !in BEGIN && forall x :: x in Escape(c) ==> x !in BEGIN)
  {
    if Escape(c) != [c] {
      ForeignToMarker(c);
      if c < ' ' && c != '\U{08}' && c != '\U{0C}' && c != '\n' && c != '\r' && c != '\t' {
        var h, l := HexDigit(c as int / 16), HexDigit(c as int % 16);
        HexIsForeign(c as int / 16);
        HexIsForeign(c as int % 16);
        ForeignToMarker('\\');
        ForeignToMarker('u');
        ForeignToMarker('0');
        assert Escape(c) == ['\\', 'u', '0', '0', h, l];
      } else {
        ForeignToMarker('\\');
        ForeignToMarker(Escape(c)[1]);
        assert Escape(c) == ['\\', Escape(c)[1]];
      }
    }
  }

  // The marker is made of capitals, spaces and a number sign.
  lemma ForeignToMarker(c: char)
    requires c != ' ' && c != '#' && !('A' <= c <= 'Z')
    ensures c !in BEGIN
  {
  }

  lemma HexIsForeign(n: nat)
    requires n < 16
    ensures HexDigit(n) !in BEGIN
  {
    ForeignToMarker(HexDigit(n));
  }

  lemma {:induction false} ForeignPrefix(front: string, rest: string)
    requires forall x :: x in front ==> x !in BEGIN
    ensures Occurrences(front + rest, BEGIN) == Occurrences(rest, BEGIN)
  {
    if front == "" {
      assert front + rest == rest;
    } else {
      assert front[0] in front;
      ForeignPrefix(front[1..], rest);
      assert front + rest == "" + [front[0]] + (front[1..] + rest);
      SeparatorSplits("", front[0], front[1..] + rest, BEGIN);
    }
  }

  // The value of a quoted string after its opening quote, and what follows its closing one
  // (section 7 of RFC 8259).
  function ReadString(s: string): Option<(string, string)> {
    if s == "" || s[0] < ' ' then None
    else if s[0] == '"' then Some(("", s[1..]))
    else if s[0] != '\\' then Prepend(s[0], ReadString(s[1..]))
    else if |s| < 2 then None
    else if s[1] != 'u' then
      match Unescaped(s[1])
      case Some(c) => Prepend(c, ReadString(s[2..]))
      case None => None
    else if |s| < 6 then None
    else
      match CodePoint(HexValue(s[2]), HexValue(s[3]), HexValue(s[4]), HexValue(s[5]))
      case Some(c) => Prepend(c, ReadString(s[6..]))
      case None => None
  }

  // Four hexadecimal digits; surrogates are not read.
  function CodePoint(a: nat, b: nat, c: nat, d: nat): Option<char> {
    var code := a * 0x1000 + b * 0x100 + c * 0x10 + d;
    if a < 16 && b < 16 && c < 16 && d < 16 && code < 0xD800 then Some(code as char) else None
  }

  function Prepend(c: char, rest: Option<(string, string)>): Option<(string, string)> {
    match rest
    case Some((value, tail)) => Some(([c] + value, tail))
    case None => None
  }

  function Unescaped(c: char): Option<char> {
    match c
    case '"' => Some('"')
    case '\\' => Some('\\')
    case '/' => Some('/')
    case 'b' => Some('\U{08}')
    case 'f' => Some('\U{0C}')
    case 'n' => Some('\n')
    case 'r' => Some('\r')
    case 't' => Some('\t')
    case _ => None
  }

  function HexValue(c: char): nat {
    if '0' <= c <= '9' then c as nat - '0' as nat
    else if 'a' <= c <= 'f' then c as nat - 'a' as nat + 10
    else if 'A' <= c <= 'F' then c as nat - 'A' as nat + 10
    else 16
  }

  lemma {:induction false} EscapeIsRead(c: char, rest: string)
    ensures ReadString(Escape(c) + rest) == Prepend(c, ReadString(rest))
  {
    hide Prepend;
    var s := Escape(c) + rest;
    if Escape(c) == [c] {
      assert s[1..] == rest;
    } else if |Escape(c)| == 2 {
      assert s[0] == '\\' && s[1] == Escape(c)[1] && s[2..] == rest;
    } else {
      ControlIsRead(c, rest);
    }
  }

  lemma {:induction false} ControlIsRead(c: char, rest: string)
    requires |Escape(c)| > 2
    ensures ReadString(Escape(c) + rest) == Prepend(c, ReadString(rest))
  {
    var s, h, l := Escape(c) + rest, c as nat / 16, c as nat % 16;
    assert Escape(c) == ['\\', 'u', '0', '0', HexDigit(h), HexDigit(l)];
    assert s[..6] == Escape(c) && s[6..] == rest;
    assert s[0] == '\\' && s[1] == 'u' && s[2] == '0' && s[3] == '0' && s[4] == HexDigit(h) && s[5] == HexDigit(l) by {
      assert forall k :: 0 <= k < 6 ==> s[k] == s[..6][k];
    }
    HexIsRead(0);
    HexIsRead(h);
    HexIsRead(l);
    CodeIs(c);
    hide Prepend, Escape, HexDigit, HexValue, CodePoint;
  }

  lemma CodeIs(c: char)
    ensures c < ' ' ==> CodePoint(0, 0, c as nat / 16, c as nat % 16) == Some(c)
  {
  }

  lemma HexIsRead(n: nat)
    requires n < 16
    ensures HexValue(HexDigit(n)) == n
  {
  }

  // A quoted text has the text as its value, and ends where the quoting ends.
  lemma {:induction false} QuotedIsReadBack(s: string, rest: string)
    ensures ReadString(Escaped(s) + "\"" + rest) == Some((s, rest))
  {
    hide Escape;
    if s == "" {
      assert Escaped(s) + "\"" + rest == "\"" + rest;
    } else {
      QuotedIsReadBack(s[1..], rest);
      var tail := Escaped(s[1..]) + "\"" + rest;
      assert Escaped(s) + "\"" + rest == Escape(s[0]) + tail;
      EscapeIsRead(s[0], tail);
      assert [s[0]] + s[1..] == s;
    }
  }

  // A stretch of marker characters starts the escaped text when it starts the text.
  lemma {:induction false} EscapingKeepsStart(s: string, k: nat)
    requires k <= |BEGIN|
    ensures StartsWith(Escaped(s), BEGIN[k..]) <==> StartsWith(s, BEGIN[k..])
    ensures StartsWith(s, BEGIN[k..]) ==> Escaped(s)[|BEGIN| - k..] == Escaped(s[|BEGIN| - k..])
    decreases |BEGIN| - k
  {
    hide Escape;
    var pattern := BEGIN[k..];
    if k == |BEGIN| {
      assert pattern == "" && Escaped(s)[0..] == Escaped(s) && s[0..] == s;
    } else if s != "" {
      EscapesAreForeign(s[0]);
      NotEmpty(s[0]);
      EscapingKeepsStart(s[1..], k + 1);
      assert pattern[1..] == BEGIN[k + 1..] && pattern[0] == BEGIN[k] && BEGIN[k] in BEGIN;
      StartsStep(s, pattern);
      StartsStep(Escaped(s), pattern);
      if Escape(s[0]) == [s[0]] {
        assert Escaped(s)[1..] == Escaped(s[1..]);
        if StartsWith(s, pattern) {
          assert Escaped(s)[|BEGIN| - k..] == Escaped(s)[1..][|BEGIN| - k - 1..];
          assert s[|BEGIN| - k..] == s[1..][|BEGIN| - k - 1..];
        }
      } else {
        assert Escaped(s)[0] == Escape(s[0])[0] && Escape(s[0])[0] in Escape(s[0]);
      }
    }
  }

  lemma NotEmpty(c: char)
    ensures Escape(c) != ""
  {
  }

  lemma StartsStep(text: string, pattern: string)
    requires pattern != "" && text != ""
    ensures StartsWith(text, pattern) <==> text[0] == pattern[0] && StartsWith(text[1..], pattern[1..])
  {
    assert forall i :: 0 < i < |pattern| && i < |text| ==>
        text[i] == text[1..][i - 1] && pattern[i] == pattern[1..][i - 1];
  }

  // Escaping neither hides a marker nor makes one.
  lemma {:induction false} EscapingKeepsOccurrences(s: string)
    ensures Occurrences(Escaped(s), BEGIN) == Occurrences(s, BEGIN)
    decreases |s|
  {
    hide Escape, StartsWith;
    if s != "" {
      EscapingKeepsStart(s, 0);
      assert BEGIN[0..] == BEGIN && |BEGIN| > 0;
      NotEmpty(s[0]);
      if StartsWith(s, BEGIN) {
        StartIsShorter(s);
        EscapingKeepsOccurrences(s[|BEGIN|..]);
      } else {
        EscapingKeepsOccurrences(s[1..]);
        EscapesAreForeign(s[0]);
        if Escape(s[0]) == [s[0]] {
          assert Escaped(s)[1..] == Escaped(s[1..]);
        } else {
          ForeignPrefix(Escape(s[0]), Escaped(s[1..]));
        }
      }
    }
  }

  lemma StartIsShorter(s: string)
    requires StartsWith(s, BEGIN)
    ensures |BEGIN| <= |s|
  {
  }

  lemma {:induction false} QuotedOccurrences(front: string, s: string, rest: string)
    ensures Occurrences(front + Quoted(s) + rest, BEGIN) ==
            Occurrences(front, BEGIN) + Occurrences(s, BEGIN) + Occurrences(rest, BEGIN)
  {
    hide Occurrences, Escaped;
    ForeignToMarker('"');
    SeparatorSplits(front, '"', Escaped(s) + "\"" + rest, BEGIN);
    assert front + Quoted(s) + rest == front + ['"'] + (Escaped(s) + "\"" + rest);
    SeparatorSplits(Escaped(s), '"', rest, BEGIN);
    assert Escaped(s) + "\"" + rest == Escaped(s) + ['"'] + rest;
    EscapingKeepsOccurrences(s);
  }

  lemma ProviderLacksB()
    ensures 'B' !in PROVIDER
  {
    assert 'B' !in "[model_providers.helm]\n";
    assert 'B' !in "name = \"Helm\"\n";
    assert 'B' !in "base_url = ";
  }

  lemma KeysLackB()
    ensures 'B' !in KEYS
  {
    assert 'B' !in "\nwire_api = \"responses\"\n";
    assert 'B' !in "env_key = \"HELM_API_KEY\"\n";
  }

  lemma ProfileLacksB()
    ensures 'B' !in PROFILE
  {
    assert 'B' !in "\n[profiles.helm]\n";
    assert 'B' !in "model_provider = \"helm\"\n";
    assert 'B' !in "model = ";
  }

  lemma EndLacksB()
    ensures 'B' !in "\n" + END + "\n"
  {
  }

  lemma MarkerHasB()
    ensures 'B' in BEGIN
  {
    assert BEGIN[2] == 'B';
  }

  lemma FixedTextHasNoMarker()
    ensures Occurrences(PROVIDER, BEGIN) == 0
    ensures Occurrences(WIRE, BEGIN) == 0
    ensures Occurrences("\n" + END + "\n", BEGIN) == 0
  {
    hide Occurrences;
    MarkerHasB();
    ProviderLacksB();
    KeysLackB();
    ProfileLacksB();
    EndLacksB();
    MissingCharacter(PROVIDER, BEGIN, 'B');
    MissingCharacter(WIRE, BEGIN, 'B');
    MissingCharacter("\n" + END + "\n", BEGIN, 'B');
  }

  // What follows the marker in a block.
  function AfterMarker(provider: string, origin: string, wire: string, model: string, end: string): string {
    "\n" + (provider + Quoted(origin + "/v1") + (wire + Quoted(model) + end))
  }

  function After(origin: string, model: string): string {
    AfterMarker(PROVIDER, origin, WIRE, model, "\n" + END + "\n")
  }

  lemma Regroup(begin: string, provider: string, url: string, wire: string, model: string, end: string)
    ensures "\n" + begin + "\n" + provider + url + wire + model + "\n" + end + "\n" ==
            "\n" + begin + ("\n" + (provider + url + (wire + model + ("\n" + end + "\n"))))
  {
  }

  lemma BlockIsMarkerAndAfter(origin: string, model: string)
    ensures Block(origin, model) == "\n" + BEGIN + After(origin, model)
  {
    Regroup(BEGIN, PROVIDER, Quoted(origin + "/v1"), WIRE, Quoted(model), END);
  }

  lemma {:induction false} MarkersAfter(provider: string, origin: string, wire: string, model: string, end: string)
    ensures Occurrences(AfterMarker(provider, origin, wire, model, end), BEGIN) ==
            Occurrences(provider, BEGIN) + Occurrences(origin, BEGIN) + Occurrences(wire, BEGIN) +
                Occurrences(model, BEGIN)
            + Occurrences(end, BEGIN)
  {
    hide Occurrences, Quoted;
    var tail := wire + Quoted(model) + end;
    ForeignToMarker('\n');
    SeparatorSplits("", '\n', provider + Quoted(origin + "/v1") + tail, BEGIN);
    assert AfterMarker(provider, origin, wire, model, end) == "" + ['\n'] + (provider + Quoted(origin + "/v1") + tail);
    EmptyHasNoMarker();
    QuotedOccurrences(provider, origin + "/v1", tail);
    QuotedOccurrences(wire, model, end);
    OriginOccurrences(origin);
  }

  lemma {:induction false} MarkersInBlock(origin: string, model: string)
    ensures Occurrences(After(origin, model), BEGIN) == Occurrences(origin, BEGIN) + Occurrences(model, BEGIN)
  {
    hide Occurrences, AfterMarker;
    FixedTextHasNoMarker();
    MarkersAfter(PROVIDER, origin, WIRE, model, "\n" + END + "\n");
  }

  lemma EmptyHasNoMarker()
    ensures Occurrences("", BEGIN) == 0
  {
  }

  lemma {:induction false} OriginOccurrences(origin: string)
    ensures Occurrences(origin + "/v1", BEGIN) == Occurrences(origin, BEGIN)
  {
    ForeignToMarker('/');
    SeparatorSplits(origin, '/', "v1", BEGIN);
    assert origin + "/v1" == origin + ['/'] + "v1";
    assert BEGIN[2] == 'B' && 'B' !in "v1";
    MissingCharacter("v1", BEGIN, 'B');
  }

  // ---- Taking the block out ----------------------------------------------------------------

  // The marker is in front + block as often as in its parts.
  lemma {:induction false} MarkersAround(front: string, origin: string, model: string, rest: string)
    ensures Occurrences(front + Block(origin, model), BEGIN) ==
            Occurrences(front, BEGIN) + 1 + Occurrences(origin, BEGIN) + Occurrences(model, BEGIN)
    ensures Occurrences(front + Block(origin, model) + rest, BEGIN) > Occurrences(front, BEGIN)
  {
    hide Occurrences, After, Block;
    BlockIsMarkerAndAfter(origin, model);
    MarkersInBlock(origin, model);
    ForeignToMarker('\n');
    MarkersFrom(front, After(origin, model));
    MarkersFrom(front, After(origin, model) + rest);
    assert front + Block(origin, model) == front + ("\n" + BEGIN + After(origin, model));
    assert front + Block(origin, model) + rest == front + ("\n" + BEGIN + (After(origin, model) + rest));
  }

  lemma {:induction false} MarkersFrom(front: string, after: string)
    ensures Occurrences(front + ("\n" + BEGIN + after), BEGIN) ==
            Occurrences(front, BEGIN) + 1 + Occurrences(after, BEGIN)
  {
    hide Occurrences;
    ForeignToMarker('\n');
    SeparatorSplits(front, '\n', BEGIN + after, BEGIN);
    assert front + ("\n" + BEGIN + after) == front + ['\n'] + (BEGIN + after);
    OccursAtStart(after, BEGIN);
  }

  // Whatever surrounds the block, if the marker is there once, the block is what goes.
  lemma {:induction false} BlockIsRemoved(front: string, origin: string, model: string, rest: string)
    requires Occurrences(front + Block(origin, model) + rest, BEGIN) == 1
    ensures Includes(front + Block(origin, model) + rest, Block(origin, model))
    ensures WithoutFirst(front + Block(origin, model) + rest, Block(origin, model)) == front + rest
  {
    hide Includes, Occurrences, StartsWith, WithoutFirst, Block, After;
    MarkersAround(front, origin, model, rest);
    IncludesIffOccurs(front, BEGIN);
    BlockIsMarkerAndAfter(origin, model);
    ForeignToMarker('\n');
    var text := front + Block(origin, model) + rest;
    forall i | 0 <= i < |front| ensures !StartsWith(text[i..], Block(origin, model)) {
      if StartsWith(text[i..], Block(origin, model)) {
        EarlierBlockHasMarker(front, '\n', BEGIN, After(origin, model), rest, i);
      }
    }
    FirstIsRemoved(text, front, Block(origin, model), rest);
  }

  // ---- The properties ------------------------------------------------------------------------

  // What a caller can see before the plan is made.
  predicate MarkerFree(origin: string, model: string) {
    !Includes(origin, BEGIN) && !Includes(model, BEGIN)
  }

  // Apply followed by rollback gives the exact original back exactly when neither the URL
  // nor the model contains the begin marker; otherwise rollback refuses and leaves the
  // block in place.
  lemma ApplyThenRollbackIff(text: string, origin: string, model: string, valid: Toml, hasHelm: Toml)
    requires PreviewConnection(text, origin, model, valid, hasHelm).Ok?
    ensures var plan := PreviewConnection(text, origin, model, valid, hasHelm).value;
            var applied := Applied(Files(text, None), plan, valid, NO_FAULTS);
            var back := RolledBack(applied.0, valid, NO_FAULTS);
            && applied == (Files(text + plan.block, Some(Receipt(plan, text + plan.block))), Done)
            && (back == (Files(text, None), Done) <==> MarkerFree(origin, model))
            && (back == (applied.0, Refused) <==> !MarkerFree(origin, model))
  {
    hide Includes, Occurrences, WithoutFirst, Block, Texts.Trim;
    var block := Block(origin, model);
    BlockIsManagedIff(text, origin, model);
    BlockIsLong(origin, model);
  }

  lemma BlockIsLong(origin: string, model: string)
    ensures |Block(origin, model)| > 0
  {
  }

  lemma {:induction false} BlockIsManagedIff(text: string, origin: string, model: string)
    requires !Includes(text, BEGIN)
    ensures Managed(text + Block(origin, model), Block(origin, model)) <==> MarkerFree(origin, model)
    ensures MarkerFree(origin, model) ==> WithoutFirst(text + Block(origin, model), Block(origin, model)) == text
  {
    hide Includes, Occurrences, WithoutFirst, Block;
    MarkersAround(text, origin, model, "");
    IncludesIffOccurs(text, BEGIN);
    IncludesIffOccurs(origin, BEGIN);
    IncludesIffOccurs(model, BEGIN);
    if MarkerFree(origin, model) {
      assert text + Block(origin, model) + "" == text + Block(origin, model);
      BlockIsRemoved(text, origin, model, "");
      assert text + "" == text;
    }
  }

  // A lane named like the marker previews and applies, and can never be rolled back.
  lemma MarkerLaneIsStuck()
    ensures var valid, hasHelm: Toml := (t: string) => true, (t: string) => false;
            var preview := PreviewConnection("", "http://localhost", BEGIN, valid, hasHelm);
            && preview.Ok?
            && var applied := Applied(Files("", None), preview.value, valid, NO_FAULTS);
               applied.1 == Done && RolledBack(applied.0, valid, NO_FAULTS) == (applied.0, Refused)
  {
    hide Occurrences, WithoutFirst, Block, RolledBack, Applied, Managed;
    var valid, hasHelm: Toml := (t: string) => true, (t: string) => false;
    MarkerIsALane();
    OccursAtStart("", BEGIN);
    assert BEGIN + "" == BEGIN;
    IncludesIffOccurs(BEGIN, BEGIN);
    ApplyThenRollbackIff("", "http://localhost", BEGIN, valid, hasHelm);
  }

  lemma MarkerIsALane()
    ensures ValidLane(BEGIN)
  {
    TrimKeepsMarker();
    ForeignToMarker('\r');
    ForeignToMarker('\n');
    ForeignToMarker('\0');
  }

  lemma TrimKeepsMarker()
    ensures Texts.Trim(BEGIN) == BEGIN
  {
    assert BEGIN[0] == '#' && BEGIN[|BEGIN| - 1] == 'N';
    assert Texts.TrimStart(BEGIN) == BEGIN;
  }

  // Edits made around the block survive a rollback; the original need not come back.
  lemma EditsAroundTheBlockSurvive(front: string, rest: string, origin: string, model: string, original: string,
                                   valid: Toml, after: string)
    requires var config := front + Block(origin, model) + rest;
             valid(config) && valid(front + rest) && Occurrences(config, BEGIN) == 1 && config != original
    ensures RolledBack(Files(front + Block(origin, model) + rest,
                             Some(Receipt(Plan(original, Block(origin, model)), after))), valid, NO_FAULTS)
            == (Files(front + rest, None), Done)
  {
    hide Includes, Occurrences, WithoutFirst, Block;
    BlockIsRemoved(front, origin, model, rest);
  }

  // Whatever was edited between the two reads is not overwritten.
  lemma SeenEditsAreKept(f: Files, plan: Plan, valid: Toml, edit: string, stop: nat)
    requires edit != f.config
    ensures var applied := Applied(f, plan, valid, Faults(stop, Some(edit))).0.config;
            applied == f.config || applied == edit
    ensures var back := RolledBack(f, valid, Faults(stop, Some(edit))).0.config;
            back == f.config || back == edit
  {
    hide Includes, Occurrences, WithoutFirst;
  }

  datatype Call = Apply(stop: nat) | Rollback(stop: nat)

  function Called(f: Files, plan: Plan, valid: Toml, call: Call): Files {
    match call
    case Apply(stop) => Applied(f, plan, valid, Faults(stop, None)).0
    case Rollback(stop) => RolledBack(f, valid, Faults(stop, None)).0
  }

  // Applies of one plan and rollbacks, in any order, each stopped anywhere or not at all.
  function Run(text: string, plan: Plan, valid: Toml, calls: seq<Call>): Files {
    if calls == [] then Files(text, None)
    else Called(Run(text, plan, valid, calls[..|calls| - 1]), plan, valid, calls[|calls| - 1])
  }

  // The three states that can be left behind.
  predicate Recoverable(f: Files, text: string, plan: Plan) {
    || f == Files(text, None)
    || f == Files(text, Some(Receipt(plan, text + plan.block)))
    || f == Files(text + plan.block, Some(Receipt(plan, text + plan.block)))
  }

  lemma {:induction false} CalledKeepsRecoverable(f: Files, text: string, plan: Plan, valid: Toml, call: Call)
    requires plan.before == text && Recoverable(f, text, plan) && valid(text) && valid(text + plan.block)
    requires Managed(text + plan.block, plan.block) && WithoutFirst(text + plan.block, plan.block) == text
    ensures Recoverable(Called(f, plan, valid, call), text, plan)
    ensures f.receipt.Some? ==> RolledBack(f, valid, NO_FAULTS) == (Files(text, None), Done)
  {
    hide Managed, WithoutFirst;
  }

  // After any such run there is either no receipt and the original text, or one rollback
  // that is not stopped brings the original text back and leaves no receipt.
  lemma {:induction false} InterruptionsAreRecoverable(text: string, origin: string, model: string, valid: Toml,
                                                       hasHelm: Toml, calls: seq<Call>)
    requires PreviewConnection(text, origin, model, valid, hasHelm).Ok? && MarkerFree(origin, model)
    ensures var plan := PreviewConnection(text, origin, model, valid, hasHelm).value;
            var f := Run(text, plan, valid, calls);
            && Recoverable(f, text, plan)
            && (f.receipt.None? ==> f.config == text)
            && (f.receipt.Some? ==> RolledBack(f, valid, NO_FAULTS) == (Files(text, None), Done))
  {
    hide Includes, Occurrences, WithoutFirst, Block, Managed, MarkerFree, RolledBack, Applied, Texts.Trim;
    var plan := PreviewConnection(text, origin, model, valid, hasHelm).value;
    BlockIsManagedIff(text, origin, model);
    BlockIsLong(origin, model);
    if calls == [] {
      CalledKeepsRecoverable(Files(text, None), text, plan, valid, Apply(0));
    } else {
      var init := calls[..|calls| - 1];
      InterruptionsAreRecoverable(text, origin, model, valid, hasHelm, init);
      var f := Run(text, plan, valid, init);
      CalledKeepsRecoverable(f, text, plan, valid, calls[|calls| - 1]);
      CalledKeepsRecoverable(Called(f, plan, valid, calls[|calls| - 1]), text, plan, valid, Apply(0));
    }
  }

  // An interrupted apply can be retried only if it had already written the config; when
  // it stopped between the receipt and the config, the retry is refused and a rollback is
  // needed first.
  lemma RetryIff(text: string, plan: Plan, valid: Toml, stop: nat)
    requires plan.before == text && valid(text + plan.block) && plan.block != ""
    ensures var f := Applied(Files(text, None), plan, valid, Faults(stop, None)).0;
            && (Applied(f, plan, valid, NO_FAULTS).1 == Done <==> stop < 3 || stop >= 5)
            && (Applied(f, plan, valid, NO_FAULTS).1 == Refused <==> 3 <= stop < 5)
  {
    assert |text + plan.block| > |text|;
  }

  // ---- What an outcome tells -------------------------------------------------------------

  // The client is connected by this plan.
  predicate Connected(f: Files, plan: Plan) {
    f.receipt.Some? && f.receipt.value.plan == plan && f.receipt.value.after == f.config
  }

  predicate CanApply(f: Files, plan: Plan, valid: Toml) {
    f.receipt.None? && f.config == plan.before && valid(plan.before + plan.block)
  }

  predicate EditedAway(faults: Faults, config: string) {
    faults.edit.Some? && faults.edit.value != config
  }

  // An apply that reports success has connected the client, one that is refused has found a
  // reason and written no config, and one is interrupted exactly when it needs more file
  // operations than succeed: two to see that it has nothing to do or may not, four to
  // notice an edit, five for everything.
  lemma ApplyTellsTheTruth(f: Files, plan: Plan, valid: Toml, faults: Faults)
    ensures var (g, outcome) := Applied(f, plan, valid, faults);
            && (outcome == Done ==> Connected(g, plan) && (Connected(f, plan) || CanApply(f, plan, valid)))
            && (outcome == Done && !Connected(f, plan) ==> g.config == plan.before + plan.block)
            && (outcome == Refused ==>
                  && (g.config == f.config || faults.edit == Some(g.config))
                  && !Connected(f, plan) && (!CanApply(f, plan, valid) || EditedAway(faults, plan.before)))
            && (outcome == Interrupted <==>
                  faults.stop <
                  if !CanApply(f, plan, valid) then 2 else if EditedAway(faults, plan.before) then 4 else 5)
  {
  }

  // Without an edit in between: what a stopped apply leaves is what it wrote first, the
  // receipt before the config.
  lemma ReceiptComesFirst(f: Files, plan: Plan, valid: Toml, stop: nat)
    requires CanApply(f, plan, valid)
    ensures var next := plan.before + plan.block;
            Applied(f, plan, valid, Faults(stop, None)).0 ==
            Files(if stop < 5 then f.config else next, if stop < 3 then None else Some(Receipt(plan, next)))
  {
  }

  predicate CanRollBack(f: Files, valid: Toml) {
    && f.receipt.Some?
    && (f.config == f.receipt.value.plan.before ||
        (valid(f.config) && Managed(f.config, f.receipt.value.plan.block) &&
         valid(WithoutFirst(f.config, f.receipt.value.plan.block))))
  }

  // What a rollback makes of the config.
  function Unmanaged(f: Files): string
    requires f.receipt.Some?
  {
    var plan := f.receipt.value.plan;
    if f.config == plan.before then f.config else WithoutFirst(f.config, plan.block)
  }

  // A rollback that reports success has left no receipt and a config without the block or
  // as it was before; one that is refused has found a reason and written nothing.
  lemma RollbackTellsTheTruth(f: Files, valid: Toml, faults: Faults)
    ensures var (g, outcome) := RolledBack(f, valid, faults);
            && (outcome == Done ==> CanRollBack(f, valid) && g == Files(Unmanaged(f), None))
            && (outcome == Refused ==>
                  && (g == f || g == Edited(f, faults))
                  && (!CanRollBack(f, valid) || EditedAway(faults, f.config)))
            && (outcome == Interrupted <==>
                  faults.stop <
                  if f.receipt.None? then 1
                  else if !CanRollBack(f, valid) then 2
                  else if f.config == f.receipt.value.plan.before || EditedAway(faults, f.config) then 3
                  else 5)
  {
    hide Managed, WithoutFirst;
  }

  // Without an edit in between: the receipt goes only when the config is written.
  lemma ReceiptGoesLast(f: Files, valid: Toml, stop: nat)
    requires CanRollBack(f, valid) && f.config != f.receipt.value.plan.before
    ensures RolledBack(f, valid, Faults(stop, None)).0 ==
            Files(if stop < 4 then f.config else Unmanaged(f), if stop < 5 then f.receipt else None)
  {
    hide Managed, WithoutFirst;
  }

  // A preview is given exactly for a lane with a name on one line, and a valid text that
  // has no connection and stays valid with the block.
  lemma {:induction false} PreviewIff(text: string, origin: string, model: string, valid: Toml, hasHelm: Toml)
    ensures PreviewConnection(text, origin, model, valid, hasHelm).Ok? <==>
              && (exists i :: 0 <= i < |model| && !Texts.IsSpace(model[i]))
              && (forall i :: 0 <= i < |model| ==> model[i] != '\r' && model[i] != '\n' && model[i] != '\0')
              && valid(text) && valid(text + Block(origin, model))
              && Occurrences(text, BEGIN) == 0 && !hasHelm(text)
  {
    Texts.BlankIsAllSpace(model);
    IncludesIffOccurs(text, BEGIN);
    hide Texts.IsSpace, Texts.Trim, Block, Includes, Occurrences;
  }
}
