/**
  The project record (Sources/Models/Models.swift): the closed property type,
  the project with its encoded scan payload, and the in-memory project store.
  The JSON encoder and decoder are parameters: the model assumes nothing about
  them beyond what a caller states.
 */
module Models {
  import opened Wrappers
  import opened Room

  newtype byte = x: int | 0 <= x < 256

  datatype PropertyType = Apartment | House | Townhouse | Commercial | Other

  /** CaseIterable.allCases, in declaration order. */
  const AllCases: seq<PropertyType> := [Apartment, House, Townhouse, Commercial, Other]

  /** The String raw value Swift gives each case: its own name. */
  function RawValue(t: PropertyType): string {
    match t
    case Apartment => "apartment"
    case House => "house"
    case Townhouse => "townhouse"
    case Commercial => "commercial"
    case Other => "other"
  }

  /** init?(rawValue:): the case with that raw value, or nil. */
  function FromRawValue(s: string): (t: Option<PropertyType>)
    ensures t.Some? ==> RawValue(t.value) == s
  {
    if s == "apartment" then Some(Apartment)
    else if s == "house" then Some(House)
    else if s == "townhouse" then Some(Townhouse)
    else if s == "commercial" then Some(Commercial)
    else if s == "other" then Some(Other)
    else None
  }

  /** Identifiable.id, which is the raw value. */
  function Id(t: PropertyType): string {
    RawValue(t)
  }

  function DisplayName(t: PropertyType): string {
    match t
    case Apartment => "Apartment"
    case House => "House"
    case Townhouse => "Townhouse"
    case Commercial => "Commercial"
    case Other => "Other"
  }

  /** Decoding a raw value gives back its case: the raw value round-trips. */
  lemma RawValueRoundTrip(t: PropertyType)
    ensures FromRawValue(RawValue(t)) == Some(t)
  {
  }

  /** Distinct cases have distinct ids, as Identifiable requires, and distinct display names. */
  lemma IdAndDisplayNameInjective(a: PropertyType, b: PropertyType)
    ensures Id(a) == Id(b) ==> a == b
    ensures DisplayName(a) == DisplayName(b) ==> a == b
  {
    if a != b {
      assert Id(a)[0] != Id(b)[0] || Id(a) != Id(b);
      assert DisplayName(a)[0] != DisplayName(b)[0] || |DisplayName(a)| != |DisplayName(b)|;
    }
  }

  /** allCases lists every case exactly once. */
  lemma AllCasesComplete(t: PropertyType)
    ensures t in AllCases
    ensures forall i, j :: 0 <= i < j < |AllCases| ==> AllCases[i] != AllCases[j]
  {
  }

  datatype Uuid = Uuid(uuidString: string)

  /** A point in time as the Date the project was created at; its encoding is left abstract. */
  type Timestamp = int

  datatype Project = Project(
    id: Uuid,
    createdAt: Timestamp,
    propertyType: PropertyType,
    address: string,
    capturedRoomJSON: seq<byte>)

  /** JSONEncoder().encode and JSONDecoder().decode for CapturedRoom, either of which may fail. */
  type Encoder = CapturedRoom -> Option<seq<byte>>
  type Decoder = seq<byte> -> Option<CapturedRoom>

  /** Project.capturedRoom: the decoded payload, or nil when it does not decode (never a crash). */
  function CapturedRoomOf(p: Project, decode: Decoder): (room: Option<CapturedRoom>)
    ensures room.Some? <==> decode(p.capturedRoomJSON).Some?
    ensures room.Some? ==> room == decode(p.capturedRoomJSON)
  {
    decode(p.capturedRoomJSON)
  }

  /**
    The project addProject builds: nil when the room does not encode, otherwise
    a project with the given fresh id, clock time, type and address, holding the
    encoded room.
   */
  function NewProject(propertyType: PropertyType, address: string, room: CapturedRoom,
                      encode: Encoder, id: Uuid, now: Timestamp): (p: Option<Project>)
    ensures p.None? <==> encode(room).None?
    ensures p.Some? ==> p.value.propertyType == propertyType && p.value.address == address
                        && p.value.id == id && p.value.createdAt == now
                        && Some(p.value.capturedRoomJSON) == encode(room)
  {
    match encode(room)
    case None => None
    case Some(data) => Some(Project(id, now, propertyType, address, data))
  }

  /**
    When the codec round-trips the room, the stored project's payload decodes
    back to that room. This is a property of the codec, which the model takes as
    a hypothesis.
   */
  lemma StoredRoomDecodes(propertyType: PropertyType, address: string, room: CapturedRoom,
                          encode: Encoder, decode: Decoder, id: Uuid, now: Timestamp)
    requires encode(room).Some? && decode(encode(room).value) == Some(room)
    ensures NewProject(propertyType, address, room, encode, id, now).Some?
    ensures CapturedRoomOf(NewProject(propertyType, address, room, encode, id, now).value, decode) == Some(room)
  {
  }

  /**
    Array.remove(atOffsets:): the elements whose index is not in offsets, in
    their original order.
   */
  function RemovingOffsets<T>(s: seq<T>, offsets: set<nat>): seq<T>
    decreases |s|
  {
    if s == [] then []
    else RemovingOffsets(s[..|s| - 1], offsets) + (if |s| - 1 in offsets then [] else [s[|s| - 1]])
  }

  /** The indices below n that are not in offsets, in increasing order. */
  function KeptIndices(n: nat, offsets: set<nat>): (idx: seq<nat>)
    ensures forall j :: 0 <= j < |idx| ==> idx[j] < n && idx[j] !in offsets
    ensures forall j, k :: 0 <= j < k < |idx| ==> idx[j] < idx[k]
    ensures forall i :: 0 <= i < n && i !in offsets ==> i in idx
    decreases n
  {
    if n == 0 then []
    else KeptIndices(n - 1, offsets) + (if n - 1 in offsets then [] else [n - 1])
  }

  /**
    Removing at offsets keeps exactly the elements at the kept indices, in
    increasing index order: nothing at an offset survives, nothing else is lost,
    and the relative order of the rest is preserved.
   */
  lemma {:induction false} RemovingOffsetsKeepsTheRest<T>(s: seq<T>, offsets: set<nat>)
    ensures |RemovingOffsets(s, offsets)| == |KeptIndices(|s|, offsets)|
    ensures forall j :: 0 <= j < |RemovingOffsets(s, offsets)| ==>
              RemovingOffsets(s, offsets)[j] == s[KeptIndices(|s|, offsets)[j]]
    decreases |s|
  {
    if s != [] {
      var n := |s| - 1;
      var pre := s[..n];
      RemovingOffsetsKeepsTheRest(pre, offsets);
      var r, rp := RemovingOffsets(s, offsets), RemovingOffsets(pre, offsets);
      var k, kp := KeptIndices(|s|, offsets), KeptIndices(n, offsets);
      assert r == rp + (if n in offsets then [] else [s[n]]);
      assert k == kp + (if n in offsets then [] else [n]);
      forall j | 0 <= j < |r|
        ensures r[j] == s[k[j]]
      {
        if j < |rp| {
          assert r[j] == rp[j] == pre[kp[j]];
          assert k[j] == kp[j];
        }
      }
    }
  }

  /** Removing offsets that are all in range shortens the list by their number. */
  lemma {:induction false} RemovingOffsetsLength<T>(s: seq<T>, offsets: set<nat>)
    requires forall o :: o in offsets ==> o < |s|
    ensures |RemovingOffsets(s, offsets)| == |s| - |offsets|
    decreases |s|
  {
    if s != [] {
      var n := |s| - 1;
      var pre := s[..n];
      var below := set o | o in offsets && o < n;
      assert offsets == if n in offsets then below + {n} else below;
      RemovingOffsetsLength(pre, below);
      RemovingOffsetsIgnoresOutOfRange(pre, offsets, below);
    }
  }

  /** Offsets at or beyond the end do not matter. */
  lemma {:induction false} RemovingOffsetsIgnoresOutOfRange<T>(s: seq<T>, offsets: set<nat>, inRange: set<nat>)
    requires forall o :: o < |s| ==> (o in offsets <==> o in inRange)
    ensures RemovingOffsets(s, offsets) == RemovingOffsets(s, inRange)
    decreases |s|
  {
    if s != [] {
      RemovingOffsetsIgnoresOutOfRange(s[..|s| - 1], offsets, inRange);
    }
  }

  /** The @Published list of projects, newest first. */
  class ProjectStore {
    var projects: seq<Project>

    constructor ()
      ensures projects == []
    {
      projects := [];
    }

    /**
      addProject: encodes the room; on failure returns nil and leaves the list
      as it was; on success puts the new project in front and returns it.
     */
    method AddProject(propertyType: PropertyType, address: string, capturedRoom: CapturedRoom,
                      encode: Encoder, id: Uuid, now: Timestamp) returns (p: Option<Project>)
      modifies this
      ensures p == NewProject(propertyType, address, capturedRoom, encode, id, now)
      ensures p.None? ==> projects == old(projects)
      ensures p.Some? ==> projects == [p.value] + old(projects)
    {
      var data := encode(capturedRoom);
      if data.None? {
        return None;
      }
      var project := Project(id, now, propertyType, address, data.value);
      projects := [project] + projects;
      return Some(project);
    }

    /** removeProjects(at:): the offsets must be in range, as Array.remove(atOffsets:) demands. */
    method RemoveProjects(offsets: set<nat>)
      requires forall o :: o in offsets ==> o < |projects|
      modifies this
      ensures projects == RemovingOffsets(old(projects), offsets)
      ensures |projects| == |old(projects)| - |offsets|
    {
      RemovingOffsetsLength(projects, offsets);
      projects := RemovingOffsets(projects, offsets);
    }
  }
}
