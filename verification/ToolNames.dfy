// Names of declared tools as an OpenAI-compatible provider accepts them.
module ToolNames {
  import opened Basics
  import opened Json
  import opened GoalTypes
  import MessageStream
  import OpenAiStream

  const MAX_PROVIDER_NAME := 64

  predicate EightHex(s: string) {
    |s| == 8 && forall i :: 0 <= i < 8 ==> '0' <= s[i] <= '9' || 'a' <= s[i] <= 'f'
  }

  /** The low 32 bits of the name's hash in hexadecimal; nothing else is assumed of the hash. */
  type NameHash = f: string -> string | (forall name :: EightHex(f(name)))
    ghost witness (name: string) => seq(8, i => '0')

  predicate ProviderChar(c: char) {
    AsciiAlphanumeric(c) || c == '_' || c == '-'
  }

  function Sanitized(name: string): (r: string)
    ensures |r| == |name| && forall i :: 0 <= i < |r| ==> ProviderChar(r[i]) && r[i] == if ProviderChar(name[i]) then name[i] else '_'
  {
    seq(|name|, i requires 0 <= i < |name| => if ProviderChar(name[i]) then name[i] else '_')
  }

  /** A usable name is kept; any other is sanitized, cut and given a hash suffix. */
  function ProviderName(f: NameHash, name: string): string {
    var sanitized := if name == "" then "tool" else Sanitized(name);
    if sanitized == name && |sanitized| <= MAX_PROVIDER_NAME then sanitized
    else
      var suffix := "__" + f(name);
      var keep := MAX_PROVIDER_NAME - 10;
      (if |sanitized| > keep then sanitized[..keep] else sanitized) + suffix
  }

  predicate Acceptable(name: string) {
    0 < |name| <= MAX_PROVIDER_NAME && forall i :: 0 <= i < |name| ==> ProviderChar(name[i])
  }

  /** Every provider name is acceptable, and acceptable names are sent unchanged. */
  lemma ProviderNameIsAcceptable(f: NameHash, name: string)
    ensures Acceptable(ProviderName(f, name))
    ensures ProviderName(f, name) == name <==> Acceptable(name)
  {
    var p := ProviderName(f, name);
    var sanitized := if name == "" then "tool" else Sanitized(name);
    assert EightHex(f(name));
    assert Acceptable(name) ==> sanitized == name;
  }

  /** The declared tool names of a request; entries without a textual name are skipped. */
  function DeclaredNames(tools: seq<Value>): seq<string> {
    if tools == [] then []
    else
      var name := MessageStream.Get(tools[|tools| - 1], "name");
      DeclaredNames(tools[..|tools| - 1]) + if name.Str? then [name.text] else []
  }

  /** Two different declared names are sent under one provider name. */
  predicate Collides(f: NameHash, names: seq<string>) {
    exists i, j :: 0 <= i < |names| && 0 <= j < |names| && names[i] != names[j] && ProviderName(f, names[i]) == ProviderName(f, names[j])
  }

  datatype NameMap = NameMap(toProvider: map<string, string>, toOriginal: map<string, string>)

  ghost predicate Describes(f: NameHash, m: NameMap, names: seq<string>) {
    SendsEach(f, m.toProvider, names) && RecoversEach(f, m.toOriginal, names)
  }

  ghost predicate SendsEach(f: NameHash, toProvider: map<string, string>, names: seq<string>) {
    (forall name :: name in toProvider <==> name in names)
    && (forall name :: name in toProvider ==> toProvider[name] == ProviderName(f, name))
  }

  ghost predicate RecoversEach(f: NameHash, toOriginal: map<string, string>, names: seq<string>) {
    (forall name :: name in names ==> ProviderName(f, name) in toOriginal && toOriginal[ProviderName(f, name)] == name)
    && (forall p :: p in toOriginal ==> toOriginal[p] in names && ProviderName(f, toOriginal[p]) == p)
  }

  /** Fills both maps; it fails exactly when two different declared names collide. */
  method FromTools(f: NameHash, tools: seq<Value>) returns (r: Result<NameMap>)
    ensures r.Ok? <==> !Collides(f, DeclaredNames(tools))
    ensures r.Ok? ==> Describes(f, r.value, DeclaredNames(tools))
  {
    hide ProviderName, Describes, Collides, DeclaredNames, MessageStream.Get;
    NothingDescribed(f);
    NoneDeclared(tools);
    var toProvider: map<string, string> := map[];
    var toOriginal: map<string, string> := map[];
    for k := 0 to |tools|
      invariant Describes(f, NameMap(toProvider, toOriginal), DeclaredNames(tools[..k]))
    {
      DeclaredNext(tools, k);
      ghost var seen := DeclaredNames(tools[..k]);
      var name := MessageStream.Get(tools[k], "name");
      if name.Str? {
        var original := name.text;
        var provider := ProviderName(f, original);
        if provider in toOriginal && toOriginal[provider] != original {
          KnownProvider(f, NameMap(toProvider, toOriginal), seen, original);
          CollisionStays(f, tools, k + 1);
          return Err(InvalidInput);
        }
        DescribesOneMore(f, NameMap(toProvider, toOriginal), seen, original);
        toProvider := toProvider[original := provider];
        toOriginal := toOriginal[provider := original];
      }
    }
    assert tools[..|tools|] == tools;
    DescribedDoNotCollide(f, NameMap(toProvider, toOriginal), DeclaredNames(tools));
    return Ok(NameMap(toProvider, toOriginal));
  }

  lemma NoneDeclared(tools: seq<Value>)
    ensures DeclaredNames(tools[..0]) == []
  {
  }

  lemma DeclaredNext(tools: seq<Value>, k: nat)
    requires k < |tools|
    ensures var name := MessageStream.Get(tools[k], "name");
            DeclaredNames(tools[..k + 1]) == if name.Str? then DeclaredNames(tools[..k]) + [name.text] else DeclaredNames(tools[..k])
  {
    assert tools[..k + 1][..k] == tools[..k];
  }

  lemma NothingDescribed(f: NameHash)
    ensures Describes(f, NameMap(map[], map[]), [])
  {
  }

  lemma DescribesOneMore(f: NameHash, m: NameMap, names: seq<string>, original: string)
    requires Describes(f, m, names)
    requires ProviderName(f, original) in m.toOriginal ==> m.toOriginal[ProviderName(f, original)] == original
    ensures Describes(f, NameMap(m.toProvider[original := ProviderName(f, original)], m.toOriginal[ProviderName(f, original) := original]),
                      names + [original])
  {
    hide ProviderName, SendsEach, RecoversEach;
    SendsOneMore(f, m.toProvider, names, original);
    RecoversOneMore(f, m.toOriginal, names, original);
  }

  lemma SendsOneMore(f: NameHash, toProvider: map<string, string>, names: seq<string>, original: string)
    requires SendsEach(f, toProvider, names)
    ensures SendsEach(f, toProvider[original := ProviderName(f, original)], names + [original])
  {
    hide ProviderName;
    assert forall n :: n in names + [original] <==> n in names || n == original;
  }

  lemma RecoversOneMore(f: NameHash, toOriginal: map<string, string>, names: seq<string>, original: string)
    requires RecoversEach(f, toOriginal, names)
    requires ProviderName(f, original) in toOriginal ==> toOriginal[ProviderName(f, original)] == original
    ensures RecoversEach(f, toOriginal[ProviderName(f, original) := original], names + [original])
  {
    hide ProviderName;
    assert forall n :: n in names + [original] <==> n in names || n == original;
  }

  /** A provider name already taken by another declared name is a collision. */
  lemma KnownProvider(f: NameHash, m: NameMap, names: seq<string>, original: string)
    requires Describes(f, m, names)
    requires ProviderName(f, original) in m.toOriginal && m.toOriginal[ProviderName(f, original)] != original
    ensures Collides(f, names + [original])
  {
    hide ProviderName, Collides;
    var other := m.toOriginal[ProviderName(f, original)];
    assert forall n :: n in names + [original] <==> n in names || n == original;
    CollidesByMembers(f, names + [original], other, original);
  }

  lemma CollidesByMembers(f: NameHash, names: seq<string>, a: string, b: string)
    requires a in names && b in names && a != b && ProviderName(f, a) == ProviderName(f, b)
    ensures Collides(f, names)
  {
    hide ProviderName;
    var i :| 0 <= i < |names| && names[i] == a;
    var j :| 0 <= j < |names| && names[j] == b;
  }

  lemma {:induction false} CollisionStays(f: NameHash, tools: seq<Value>, k: nat)
    requires k <= |tools| && Collides(f, DeclaredNames(tools[..k]))
    ensures Collides(f, DeclaredNames(tools))
    decreases |tools| - k
  {
    hide ProviderName;
    if k == |tools| {
      assert tools[..k] == tools;
    } else {
      assert tools[..k + 1][..k] == tools[..k];
      var names, more := DeclaredNames(tools[..k]), DeclaredNames(tools[..k + 1]);
      var i, j :| 0 <= i < |names| && 0 <= j < |names| && names[i] != names[j] && ProviderName(f, names[i]) == ProviderName(f, names[j]);
      assert more[i] == names[i] && more[j] == names[j];
      CollisionStays(f, tools, k + 1);
    }
  }

  lemma DescribedDoNotCollide(f: NameHash, m: NameMap, names: seq<string>)
    requires Describes(f, m, names)
    ensures !Collides(f, names)
  {
    hide ProviderName;
    forall i, j | 0 <= i < |names| && 0 <= j < |names| && ProviderName(f, names[i]) == ProviderName(f, names[j])
      ensures names[i] == names[j]
    {
      assert names[i] in names && names[j] in names;
    }
  }

  /** The name a request is sent with. */
  function Sent(f: NameHash, m: NameMap, name: string): string {
    if name in m.toProvider then m.toProvider[name] else ProviderName(f, name)
  }

  /** A declared tool survives the trip to the provider and back, under an acceptable name. */
  lemma NamesSurvive(f: NameHash, tools: seq<Value>, m: NameMap, name: string, c: OpenAiStream.Context)
    requires Describes(f, m, DeclaredNames(tools)) && name in DeclaredNames(tools) && c.names == m.toOriginal
    ensures Acceptable(Sent(f, m, name)) && OpenAiStream.OriginalName(c, Sent(f, m, name)) == name
  {
    ProviderNameIsAcceptable(f, name);
  }

  /** Declared names that are acceptable already never collide. */
  lemma AcceptableNamesDoNotCollide(f: NameHash, tools: seq<Value>)
    requires forall name :: name in DeclaredNames(tools) ==> Acceptable(name)
    ensures !Collides(f, DeclaredNames(tools))
  {
    hide ProviderName, Acceptable;
    var names := DeclaredNames(tools);
    forall name | name in names
      ensures ProviderName(f, name) == name
    {
      ProviderNameIsAcceptable(f, name);
    }
  }

  /** A name that cannot be sent keeps its first characters, made acceptable, and ends in its hash. */
  lemma ChangedNameKeepsPrefix(f: NameHash, name: string)
    requires !Acceptable(name) && name != ""
    ensures var p := ProviderName(f, name);
            var kept := if |name| <= 54 then |name| else 54;
            && |p| == kept + 10 && p[kept..] == "__" + f(name)
            && forall i :: 0 <= i < kept ==> p[i] == if ProviderChar(name[i]) then name[i] else '_'
  {
    assert EightHex(f(name));
    assert Sanitized(name) == name ==> |name| > MAX_PROVIDER_NAME;
    var kept := if |name| <= 54 then |name| else 54;
    assert ProviderName(f, name) == Sanitized(name)[..kept] + ("__" + f(name));
  }

  /** Changed names of different hashes never collide. */
  lemma HashesTellApart(f: NameHash, a: string, b: string)
    requires !Acceptable(a) && !Acceptable(b) && f(a) != f(b)
    ensures ProviderName(f, a) != ProviderName(f, b)
  {
    hide ProviderName;
    EndsInHash(f, a);
    EndsInHash(f, b);
  }

  lemma EndsInHash(f: NameHash, name: string)
    requires !Acceptable(name)
    ensures var p := ProviderName(f, name); |p| >= 10 && p[|p| - 8..] == f(name)
  {
    assert EightHex(f(name));
    var sanitized := if name == "" then "tool" else Sanitized(name);
    var front := if |sanitized| > 54 then sanitized[..54] else sanitized;
    assert ProviderName(f, name) == (front + "__") + f(name);
  }

  function ToolOf(name: string): Value {
    Obj([Field("name", Str(name))])
  }

  /** Tools declared by name are declared under those names, in order. */
  lemma {:induction false} DeclaredAreRead(names: seq<string>)
    ensures DeclaredNames(seq(|names|, i requires 0 <= i < |names| => ToolOf(names[i]))) == names
    decreases |names|
  {
    var tools := seq(|names|, i requires 0 <= i < |names| => ToolOf(names[i]));
    if names != [] {
      var last := |names| - 1;
      DeclaredAreRead(names[..last]);
      assert tools[..last] == seq(last, i requires 0 <= i < last => ToolOf(names[..last][i]));
      assert MessageStream.Get(tools[last], "name") == Str(names[last]);
      assert names[..last] + [names[last]] == names;
    }
  }
}
