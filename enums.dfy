/** The enumerations of the client library: the two device types and the
    record types they stand for, and the lists of accepted placement,
    configuration and status values. */
module Enums {
  import opened Wire
  import opened Strings

  /** `DeviceType`: members in declaration order are TRAP, GATEWAY. */
  datatype DeviceType = Trap | Gateway

  const DeviceTypes: seq<DeviceType> := [Trap, Gateway]

  /** `get_record_type`: the member's value, a store record type. */
  function RecordType(t: DeviceType): (r: string)
    ensures r == TrapRecType <==> t == Trap
    ensures r == GatewayRecType <==> t == Gateway
  {
    assert TrapRecType[14] != GatewayRecType[14];
    match t
    case Trap => TrapRecType
    case Gateway => GatewayRecType
  }

  /** The first of `members` whose value is `recType`. */
  function FirstWithRecordType(members: seq<DeviceType>, recType: string): (r: Option<DeviceType>)
    ensures r.Some? ==> r.value in members && RecordType(r.value) == recType
    ensures r.None? ==> forall t :: t in members ==> RecordType(t) != recType
  {
    if members == [] then None
    else if RecordType(members[0]) == recType then Some(members[0])
    else FirstWithRecordType(members[1..], recType)
  }

  /** `from_rec_type`: the member whose value equals the record type, else
      None. */
  function FromRecType(recType: string): (r: Option<DeviceType>)
    ensures r.Some? ==> RecordType(r.value) == recType
    ensures r.None? <==> recType != TrapRecType && recType != GatewayRecType
  {
    FirstWithRecordType(DeviceTypes, recType)
  }

  /** Every member is found again from its own record type. */
  lemma RecTypeRoundTrip(t: DeviceType)
    ensures FromRecType(RecordType(t)) == Some(t)
  {
    assert TrapRecType != GatewayRecType by {
      assert TrapRecType[14] != GatewayRecType[14];
    }
  }

  const TrapWords: seq<string> := ["trap", "traps", "motion", "rodent"]
  const GatewayWords: seq<string> := ["gateway", "gateways", "gw"]

  /** `from_string`: the input lower-cased and stripped, then looked up in
      the two word lists. */
  function FromString(s: string): (r: Option<DeviceType>)
    ensures r == Some(Trap) <==> Strip(Lower(s)) in TrapWords
    ensures r == Some(Gateway) <==> Strip(Lower(s)) in GatewayWords
    ensures r.None? <==> Strip(Lower(s)) !in TrapWords && Strip(Lower(s)) !in GatewayWords
  {
    var key := Strip(Lower(s));
    WordListsDisjoint(key);
    if key in TrapWords then Some(Trap)
    else if key in GatewayWords then Some(Gateway)
    else None
  }

  /** No word names both types: the lists share no length. */
  lemma WordListsDisjoint(w: string)
    ensures !(w in TrapWords && w in GatewayWords)
  {
    if w in GatewayWords {
      assert |w| == 7 || |w| == 8 || |w| == 2;
    }
  }

  /** A whitespace character is no capital, so lower-casing keeps it a space. */
  lemma LowerKeepsSpace(w: string)
    requires AllSpace(w)
    ensures AllSpace(Lower(w))
  {
    forall i | 0 <= i < |w| ensures IsSpace(Lower(w)[i]) {
      assert LowerChar(w[i]) == w[i];
    }
  }

  /** Surrounding whitespace does not change the device type a string names. */
  lemma FromStringIgnoresPadding(w1: string, s: string, w2: string)
    requires AllSpace(w1) && AllSpace(w2)
    ensures FromString(w1 + s + w2) == FromString(s)
  {
    assert Lower(w1 + s + w2) == Lower(w1) + Lower(s) + Lower(w2);
    LowerKeepsSpace(w1);
    LowerKeepsSpace(w2);
    StripIgnoresPadding(Lower(w1), Lower(s), Lower(w2));
  }

  /** Nor does the case of its letters. */
  lemma FromStringIgnoresCase(s: string)
    ensures FromString(Lower(s)) == FromString(s)
  {
    LowerIdempotent(s);
  }

  /** Each word of the lists names its own type, whatever its case. */
  lemma WordsNameTheirType(s: string)
    requires Lower(s) in TrapWords + GatewayWords
    ensures FromString(s) == (if Lower(s) in TrapWords then Some(Trap) else Some(Gateway))
  {
    var w := Lower(s);
    assert Strip(w) == w by {
      assert w != [] && !IsSpace(w[0]) && !IsSpace(w[|w| - 1]);
    }
  }

  /** `get_display_name`. */
  function DisplayName(t: DeviceType): (name: string)
    ensures t == Trap <==> name == "Trap/Motion Sensor"
    ensures t == Gateway <==> name == "Gateway"
  {
    match t
    case Trap => "Trap/Motion Sensor"
    case Gateway => "Gateway"
  }

  datatype PlacementType = Internal | External
  datatype ConfigurationType = Poison | BaitLured | KillTrap | Glue | Cavity
  datatype DeviceStatus = Pending | Active | Inactive | Provisioning

  function PlacementValue(p: PlacementType): string {
    match p
    case Internal => "Internal"
    case External => "External"
  }

  function ConfigurationValue(c: ConfigurationType): string {
    match c
    case Poison => "Poison"
    case BaitLured => "Bait/Lured"
    case KillTrap => "Kill/Trap"
    case Glue => "Glue"
    case Cavity => "Cavity"
  }

  function StatusValue(s: DeviceStatus): string {
    match s
    case Pending => "pending"
    case Active => "active"
    case Inactive => "inactive"
    case Provisioning => "Provisioning"
  }

  /** The members of each enumeration in declaration order. */
  const PlacementMembers: seq<PlacementType> := [Internal, External]
  const ConfigurationMembers: seq<ConfigurationType> := [Poison, BaitLured, KillTrap, Glue, Cavity]
  const StatusMembers: seq<DeviceStatus> := [Pending, Active, Inactive, Provisioning]

  /** `PlacementType.get_valid_values`: one value per member, in
      declaration order, no two alike. */
  function PlacementValues(): (vs: seq<string>)
    ensures |vs| == |PlacementMembers|
    ensures forall i :: 0 <= i < |vs| ==> vs[i] == PlacementValue(PlacementMembers[i])
    ensures forall p: PlacementType :: PlacementValue(p) in vs
    ensures forall i, j :: 0 <= i < j < |vs| ==> vs[i] != vs[j]
  {
    assert "Internal"[0] != "External"[0];
    [PlacementValue(Internal), PlacementValue(External)]
  }

  /** `ConfigurationType.get_valid_values`. */
  function ConfigurationValues(): (vs: seq<string>)
    ensures |vs| == |ConfigurationMembers|
    ensures forall i :: 0 <= i < |vs| ==> vs[i] == ConfigurationValue(ConfigurationMembers[i])
    ensures forall c: ConfigurationType :: ConfigurationValue(c) in vs
    ensures forall i, j :: 0 <= i < j < |vs| ==> vs[i] != vs[j]
  {
    assert "Poison"[0] != "Cavity"[0];
    [ConfigurationValue(Poison), ConfigurationValue(BaitLured), ConfigurationValue(KillTrap),
     ConfigurationValue(Glue), ConfigurationValue(Cavity)]
  }

  /** `DeviceStatus.get_valid_values`. */
  function StatusValues(): (vs: seq<string>)
    ensures |vs| == |StatusMembers|
    ensures forall i :: 0 <= i < |vs| ==> vs[i] == StatusValue(StatusMembers[i])
    ensures forall s: DeviceStatus :: StatusValue(s) in vs
    ensures forall i, j :: 0 <= i < j < |vs| ==> vs[i] != vs[j]
  {
    assert "pending"[0] != "Provisioning"[0];
    [StatusValue(Pending), StatusValue(Active), StatusValue(Inactive), StatusValue(Provisioning)]
  }

  /** The defaults the device layer writes (placement 'Internal',
      configuration 'Bait/Lured', status 'pending') are accepted values. */
  lemma DefaultsAreValid()
    ensures "Internal" in PlacementValues()
    ensures "Bait/Lured" in ConfigurationValues()
    ensures "pending" in StatusValues()
  {
    assert PlacementValues()[0] == "Internal";
    assert ConfigurationValues()[1] == "Bait/Lured";
    assert StatusValues()[0] == "pending";
  }
}
