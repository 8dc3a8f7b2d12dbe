/** Device identifiers: a one-character type tag ('L' for a light, 'G' for a group)
    followed by the address the hardware knows the device by. */
module DeviceIds {
  import opened JsValues

  datatype Kind = Light | Group

  /** What an identifier resolves to: the kind of device and its hardware address. */
  datatype Target = Target(kind: Kind, address: string)

  /** The tag character of each kind. */
  function Tag(k: Kind): char
  {
    match k
    case Light => 'L'
    case Group => 'G'
  }

  /** The string index `s[i]`: undefined past the end of the string. */
  function CharAt(s: string, i: nat): (r: Option<char>)
    ensures r.Some? <==> i < |s|
    ensures r.Some? ==> r.value == s[i]
  {
    if i < |s| then Some(s[i]) else None
  }

  /** `s.substr(start)`: the suffix from `start` on, empty when `start` is past the end. */
  function Substr(s: string, start: nat): (r: string)
    ensures start <= |s| ==> s == s[..start] + r
    ensures start >= |s| ==> r == ""
  {
    if start < |s| then s[start..] else ""
  }

  /** `isLight`: the identifier's first character is 'L'. */
  function IsLight(id: string): (r: bool)
    ensures r <==> |id| > 0 && id[0] == 'L'
  {
    CharAt(id, 0) == Some('L')
  }

  /** `isGroup`: the identifier's first character is 'G'. */
  function IsGroup(id: string): (r: bool)
    ensures r <==> |id| > 0 && id[0] == 'G'
  {
    CharAt(id, 0) == Some('G')
  }

  /** No identifier is both a light and a group; the empty identifier is neither. */
  lemma LightAndGroupDisjoint(id: string)
    ensures !(IsLight(id) && IsGroup(id))
    ensures id == "" ==> !IsLight(id) && !IsGroup(id)
  {
  }

  /** The hardware address: the identifier with its tag removed (`id.substr(1)`). */
  function Address(id: string): (r: string)
    ensures |id| > 0 ==> id == [id[0]] + r
    ensures id == "" ==> r == ""
  {
    Substr(id, 1)
  }

  /** Resolution of an identifier to a hardware target, None for an unrecognised tag. */
  function Classify(id: string): (r: Option<Target>)
    ensures r == Some(Target(Light, Address(id))) <==> IsLight(id)
    ensures r == Some(Target(Group, Address(id))) <==> IsGroup(id)
    ensures r == None <==> !IsLight(id) && !IsGroup(id)
  {
    if IsLight(id) then Some(Target(Light, Address(id)))
    else if IsGroup(id) then Some(Target(Group, Address(id)))
    else None
  }

  /** The identifier of a target: its tag followed by its address. */
  function Identifier(t: Target): string
  {
    [Tag(t.kind)] + t.address
  }

  /** Classification and identifier formation are inverse to each other. */
  lemma ClassifyRoundTrip(id: string, t: Target)
    ensures Classify(Identifier(t)) == Some(t)
    ensures Classify(id) == Some(t) ==> Identifier(t) == id
  {
    var s := Identifier(t);
    assert s[1..] == t.address;
  }
}
