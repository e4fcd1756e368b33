/** The user document of Server/modals/userModal.js: its enumerations and
    defaults, the trim/lowercase rules applied on assignment, validation, and
    the pre-save hook that hashes a modified password. Hashing and comparing
    (bcrypt) are parameters: `hash` and `matches`. */
module UserSchema {
  import opened Common
  import Text

  datatype Role = Admin | Volunteer | General

  function RoleName(r: Role): string {
    match r
    case Admin => "admin"
    case Volunteer => "volunteer"
    case _ => "general"
  }

  function ParseRole(s: string): (r: Option<Role>)
    ensures r.Some? <==> s == "admin" || s == "volunteer" || s == "general"
    ensures r.Some? ==> RoleName(r.value) == s
  {
    if s == "admin" then Some(Admin)
    else if s == "volunteer" then Some(Volunteer)
    else if s == "general" then Some(Role.General)
    else None
  }

  datatype AccessLevel = Super | Support | General

  function AccessLevelName(a: AccessLevel): string {
    match a
    case Super => "super"
    case Support => "support"
    case _ => "general"
  }

  function ParseAccessLevel(s: string): (r: Option<AccessLevel>)
    ensures r.Some? <==> s == "super" || s == "support" || s == "general"
    ensures r.Some? ==> AccessLevelName(r.value) == s
  {
    if s == "super" then Some(Super)
    else if s == "support" then Some(Support)
    else if s == "general" then Some(AccessLevel.General)
    else None
  }

  /** The category of a general user. */
  datatype GeneralType =
    | Ngo | ServiceableGroup | Hostel | Catering | School | College
    | OldAgeHome | OrphanageHome | OtherHome | Others

  function GeneralTypeName(g: GeneralType): string {
    match g
    case Ngo => "ngo"
    case ServiceableGroup => "serviceable_group"
    case Hostel => "hostel"
    case Catering => "catering"
    case School => "school"
    case College => "college"
    case OldAgeHome => "old_age_home"
    case OrphanageHome => "orphanage_home"
    case OtherHome => "other_home"
    case Others => "others"
  }

  const GeneralTypeNames: seq<string> :=
    ["ngo", "serviceable_group", "hostel", "catering", "school", "college",
     "old_age_home", "orphanage_home", "other_home", "others"]

  function ParseGeneralType(s: string): (r: Option<GeneralType>)
    ensures r.Some? <==> s in GeneralTypeNames
    ensures r.Some? ==> GeneralTypeName(r.value) == s
  {
    if s == "ngo" then Some(Ngo)
    else if s == "serviceable_group" then Some(ServiceableGroup)
    else if s == "hostel" then Some(Hostel)
    else if s == "catering" then Some(Catering)
    else if s == "school" then Some(School)
    else if s == "college" then Some(College)
    else if s == "old_age_home" then Some(OldAgeHome)
    else if s == "orphanage_home" then Some(OrphanageHome)
    else if s == "other_home" then Some(OtherHome)
    else if s == "others" then Some(Others)
    else None
  }

  /** Each enumeration's names read back as the value they name. */
  lemma NamesRoundTrip(r: Role, a: AccessLevel, g: GeneralType)
    ensures ParseRole(RoleName(r)) == Some(r)
    ensures ParseAccessLevel(AccessLevelName(a)) == Some(a)
    ensures ParseGeneralType(GeneralTypeName(g)) == Some(g)
  {
  }

  /** The extra fields of a volunteer; each defaults to null. */
  datatype VolunteerInfo = VolunteerInfo(vehicleNo: Option<string>, licenseNo: Option<string>, whoTheyAre: Option<string>)

  const NoVolunteerInfo := VolunteerInfo(None, None, None)

  /** Entries of the `donates` and `receives` lists. */
  datatype DonationRef = DonationRef(donationId: Option<Id>, timestamp: Millis)
  datatype ReceiveRef = ReceiveRef(receiveId: Option<Id>, timestamp: Millis)

  /** A stored user. `password` holds the hash, never the plain text. */
  datatype User = User(
    id: Id,
    username: string,
    email: string,
    mobile: string,
    role: Role,
    accessLevel: AccessLevel,
    generalType: Option<GeneralType>,
    volunteerInfo: VolunteerInfo,
    proofDocument: Option<string>,
    password: string,
    donates: seq<DonationRef>,
    receives: seq<ReceiveRef>)

  /** `username` and `mobile` are trimmed when assigned. */
  function NormaliseUsername(s: string): string {
    Text.Trim(s)
  }

  /** `email` is trimmed, then lower-cased, when assigned. */
  function NormaliseEmail(s: string): string {
    Text.Lower(Text.Trim(s))
  }

  /** Lower-casing cannot create or remove whitespace at either end. */
  lemma LowerKeepsTrim(t: string)
    requires Text.Trim(t) == t
    ensures Text.Trim(Text.Lower(t)) == Text.Lower(t)
  {
    var r := Text.Lower(t);
    if r != [] {
      assert !Text.IsSpace(t[0]) && !Text.IsSpace(t[|t| - 1]);
      assert r[0] == Text.LowerChar(t[0]) && r[|r| - 1] == Text.LowerChar(t[|t| - 1]);
    }
    Text.TrimOfTrimmed(r);
  }

  /** Assigning an already normalised email changes nothing: the stored
      email is its own trim and its own lower case. */
  lemma NormaliseEmailIdempotent(s: string)
    ensures Text.Trim(NormaliseEmail(s)) == NormaliseEmail(s)
    ensures Text.Lower(NormaliseEmail(s)) == NormaliseEmail(s)
    ensures NormaliseEmail(NormaliseEmail(s)) == NormaliseEmail(s)
  {
    var t := Text.Trim(s);
    Text.TrimIdempotent(s);
    LowerKeepsTrim(t);
    Text.LowerIdempotent(t);
  }

  /** Schema validation of a user: `username`, `email`, `mobile` and
      `password` are required non-empty strings, `role` and `accessLevel` are
      required and must be in their enumerations, `generalType` is null or in
      its enumeration. The remaining fields take the given values. */
  function CastUser(username: string, email: string, mobile: string, role: string,
                    accessLevel: Option<string>, generalType: Option<string>,
                    volunteerInfo: VolunteerInfo, proofDocument: Option<string>, password: string,
                    donates: seq<DonationRef>, receives: seq<ReceiveRef>): (r: Option<User>)
    ensures r.Some? <==> && username != "" && email != "" && mobile != "" && password != ""
                         && ParseRole(role).Some?
                         && accessLevel.Some? && ParseAccessLevel(accessLevel.value).Some?
                         && (generalType.None? || ParseGeneralType(generalType.value).Some?)
    ensures r.Some? ==> && r.value.username == username && r.value.email == email
                        && r.value.mobile == mobile && RoleName(r.value.role) == role
                        && AccessLevelName(r.value.accessLevel) == accessLevel.value
                        && (generalType.None? <==> r.value.generalType.None?)
                        && (generalType.Some? ==> GeneralTypeName(r.value.generalType.value) == generalType.value)
                        && r.value.volunteerInfo == volunteerInfo && r.value.proofDocument == proofDocument
                        && r.value.password == password && r.value.donates == donates
                        && r.value.receives == receives && r.value.id == 0
  {
    if username == "" || email == "" || mobile == "" || password == "" then None
    else match (ParseRole(role), accessLevel)
      case (Some(ro), Some(a)) =>
        (match (ParseAccessLevel(a), generalType)
         case (Some(al), None) =>
           Some(User(0, username, email, mobile, ro, al, None, volunteerInfo, proofDocument, password, donates, receives))
         case (Some(al), Some(g)) =>
           (match ParseGeneralType(g)
            case Some(gt) =>
              Some(User(0, username, email, mobile, ro, al, Some(gt), volunteerInfo, proofDocument, password, donates, receives))
            case None => None)
         case _ => None)
      case _ => None
  }

  /** A user document in memory, before and during `save()`. */
  class UserDocument {
    var username: string
    var email: string
    var mobile: string
    var role: string
    var accessLevel: Option<string>
    var generalType: Option<string>
    var volunteerInfo: VolunteerInfo
    var proofDocument: Option<string>
    var password: string
    var donates: seq<DonationRef>
    var receives: seq<ReceiveRef>
    /** Whether `password` was assigned since the document was loaded or last saved. */
    var passwordModified: bool

    /** `new User({...})`: the setters trim and lower-case, the remaining
        fields take their defaults, and every given path counts as modified. */
    constructor (username: string, email: string, mobile: string, role: string,
                 accessLevel: Option<string>, password: string)
      ensures this.username == NormaliseUsername(username)
      ensures this.email == NormaliseEmail(email)
      ensures this.mobile == Text.Trim(mobile)
      ensures this.role == role && this.accessLevel == accessLevel && this.password == password
      ensures this.generalType == None && this.volunteerInfo == NoVolunteerInfo && this.proofDocument == None
      ensures this.donates == [] && this.receives == []
      ensures passwordModified
    {
      this.username := NormaliseUsername(username);
      this.email := NormaliseEmail(email);
      this.mobile := Text.Trim(mobile);
      this.role := role;
      this.accessLevel := accessLevel;
      this.generalType := None;
      this.volunteerInfo := NoVolunteerInfo;
      this.proofDocument := None;
      this.password := password;
      this.donates := [];
      this.receives := [];
      this.passwordModified := true;
    }

    /** Assigning a new password marks it modified. */
    method SetPassword(p: string)
      modifies this`password, this`passwordModified
      ensures password == p && passwordModified
    {
      password := p;
      passwordModified := true;
    }

    /** The pre-save hook: the password is replaced by its hash only when it
        was modified; an unmodified password is left exactly as stored. */
    method PreSave(hash: string -> string)
      modifies this`password
      ensures password == if passwordModified then hash(old(password)) else old(password)
    {
      if !passwordModified {
        return;
      }
      password := hash(password);
    }

    /** After a successful save no path counts as modified. */
    method MarkSaved()
      modifies this`passwordModified
      ensures !passwordModified
    {
      passwordModified := false;
    }

    /** `comparePassword`: asks the hash library whether `candidate` matches
        the stored hash; the document is only read. */
    function ComparePassword(candidate: string, matches: (string, string) -> bool): (r: bool)
      reads this
      ensures r == matches(candidate, password)
    {
      matches(candidate, password)
    }

    /** The document as the schema would store it, or None when validation
        fails. The id is assigned by the store. */
    function Stored(): (r: Option<User>)
      reads this
      ensures accessLevel.None? ==> r.None?
      ensures r.Some? ==> && r.value.username == username && r.value.email == email
                          && r.value.mobile == mobile && r.value.password == password
                          && RoleName(r.value.role) == role
    {
      CastUser(username, email, mobile, role, accessLevel, generalType, volunteerInfo,
               proofDocument, password, donates, receives)
    }
  }

  /** Saving twice hashes once: after a save, a second pre-save hook leaves
      the stored hash unchanged. */
  method SaveTwice(doc: UserDocument, hash: string -> string)
    modifies doc
    ensures doc.password == if old(doc.passwordModified) then hash(old(doc.password)) else old(doc.password)
  {
    doc.PreSave(hash);
    doc.MarkSaved();
    doc.PreSave(hash);
  }
}
