// The declaration fingerprint that decides whether a tool may be run again.
module ResumeContract {
  import opened Basics
  import opened Json
  import opened CanonicalJson
  import opened GoalTypes
  import opened StepTypes
  import opened Printers
  import Utf8

  /** A descriptor the bounded printer accepts. */
  predicate Describable(descriptor: Value) {
    DepthWithin(descriptor, MAX_DESCRIPTOR_DEPTH) && Nodes(descriptor) <= MAX_DESCRIPTOR_NODES
    && CanonicalLength(descriptor) <= MAX_DESCRIPTOR_BYTES
  }

  function Fingerprint(h: Digest, descriptor: Value): string {
    h(Utf8.OfString(CanonicalText(descriptor)))
  }

  /** A contract is made exactly for a usable name and a descriptor within the limits, and is then valid. */
  method New(h: Digest, name: string, idempotent: bool, descriptor: Value) returns (c: Option<Contract>)
    ensures c.Some? <==> name != "" && Utf8.ByteLen(name) <= MAX_TOOL_NAME && Describable(descriptor)
    ensures c.Some? ==> c.value == Contract(CONTRACT_VERSION, name, idempotent, Fingerprint(h, descriptor)) && ValidContract(c.value)
  {
    if name == "" || Utf8.ByteLen(name) > MAX_TOOL_NAME {
      return None;
    }
    var bytes := CanonicalJsonBytes(descriptor);
    if bytes.None? {
      return None;
    }
    assert LowerHex(h(bytes.value));
    return Some(Contract(CONTRACT_VERSION, name, idempotent, h(bytes.value)));
  }

  /**
   * A fingerprint ignores key order and otherwise tells descriptors apart, unless
   * their two canonical texts are a collision of the digest.
   */
  lemma FingerprintDetectsDrift(h: Digest, a: Value, b: Value)
    requires IntegersOnly(a) && IntegersOnly(b)
    ensures Same(a, b) ==> Fingerprint(h, a) == Fingerprint(h, b)
    ensures Fingerprint(h, a) == Fingerprint(h, b) ==>
              Same(a, b)
              || (Utf8.OfString(CanonicalText(a)) != Utf8.OfString(CanonicalText(b))
                  && h(Utf8.OfString(CanonicalText(a))) == h(Utf8.OfString(CanonicalText(b))))
  {
    CanonicalTextIdentifies(a, b);
    if Utf8.OfString(CanonicalText(a)) == Utf8.OfString(CanonicalText(b)) {
      Utf8.OfStringInjective(CanonicalText(a), CanonicalText(b));
    }
  }
}
