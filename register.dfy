/** The two-slide registration form: field updates, validation, slide moves and the submit guard. */

module Register {
  import opened Wrappers
  import opened Text

  /** The first slide's fields. */
  datatype AccountDetails = AccountDetails(email: string, password: string, fullName: string, phoneNumber: string)

  /** The second slide's fields. */
  datatype VehicleDetails = VehicleDetails(
    phoneNumber: string,
    licenseNumber: string,
    vehicleType: string,
    vehicleMake: string,
    vehicleModel: string,
    vehicleColor: string,
    licensePlate: string)

  /** The registration payload. */
  datatype RegisterState = RegisterState(driverDetails: VehicleDetails, userDetails: AccountDetails)

  datatype AccountField = Email | Password | FullName | AccountPhone
  datatype VehicleField = VehiclePhone | LicenseNumber | VehicleType | VehicleMake | VehicleModel | VehicleColor | LicensePlate

  const INITIAL_REGISTER_STATE: RegisterState :=
    RegisterState(VehicleDetails("", "", "", "", "", "", ""), AccountDetails("", "", "", ""))

  const USER_DETAILS_INCOMPLETE: string := "Please complete all user details before continuing."
  const DRIVER_DETAILS_INCOMPLETE: string := "Please complete all driver details before submitting."
  const REGISTRATION_FAILED: string := "Registration failed."

  function AccountValue(u: AccountDetails, k: AccountField): string {
    match k
    case Email => u.email
    case Password => u.password
    case FullName => u.fullName
    case AccountPhone => u.phoneNumber
  }

  function VehicleValue(d: VehicleDetails, k: VehicleField): string {
    match k
    case VehiclePhone => d.phoneNumber
    case LicenseNumber => d.licenseNumber
    case VehicleType => d.vehicleType
    case VehicleMake => d.vehicleMake
    case VehicleModel => d.vehicleModel
    case VehicleColor => d.vehicleColor
    case LicensePlate => d.licensePlate
  }

  /** `{ ...prev, [key]: value }` on the first slide's record: only the named field changes. */
  function WithAccountValue(u: AccountDetails, k: AccountField, v: string): (r: AccountDetails)
    ensures AccountValue(r, k) == v
    ensures forall j :: j != k ==> AccountValue(r, j) == AccountValue(u, j)
  {
    match k
    case Email => u.(email := v)
    case Password => u.(password := v)
    case FullName => u.(fullName := v)
    case AccountPhone => u.(phoneNumber := v)
  }

  /** The same on the second slide's record. */
  function WithVehicleValue(d: VehicleDetails, k: VehicleField, v: string): (r: VehicleDetails)
    ensures VehicleValue(r, k) == v
    ensures forall j :: j != k ==> VehicleValue(r, j) == VehicleValue(d, j)
  {
    match k
    case VehiclePhone => d.(phoneNumber := v)
    case LicenseNumber => d.(licenseNumber := v)
    case VehicleType => d.(vehicleType := v)
    case VehicleMake => d.(vehicleMake := v)
    case VehicleModel => d.(vehicleModel := v)
    case VehicleColor => d.(vehicleColor := v)
    case LicensePlate => d.(licensePlate := v)
  }

  /** Writing back the value a field already has changes nothing. */
  lemma WithAccountValueSame(u: AccountDetails, k: AccountField)
    ensures WithAccountValue(u, k, AccountValue(u, k)) == u
  {
  }

  /** `isUserDetailsValid`: every first-slide field is non-empty after trimming. */
  predicate IsUserDetailsValid(u: AccountDetails) {
    forall k :: IsFilled(AccountValue(u, k))
  }

  /** `isDriverDetailsValid`: every second-slide field is non-empty after trimming. */
  predicate IsDriverDetailsValid(d: VehicleDetails) {
    forall k :: IsFilled(VehicleValue(d, k))
  }

  /** A first slide is complete exactly when every one of its fields has a non-white-space character. */
  lemma UserDetailsValidIff(u: AccountDetails)
    ensures IsUserDetailsValid(u) <==>
      forall k :: exists i :: 0 <= i < |AccountValue(u, k)| && !IsWhitespace(AccountValue(u, k)[i])
  {
    forall k {
      IsFilledIff(AccountValue(u, k));
    }
  }

  /** A second slide is complete exactly when every one of its fields has a non-white-space character. */
  lemma DriverDetailsValidIff(d: VehicleDetails)
    ensures IsDriverDetailsValid(d) <==>
      forall k :: exists i :: 0 <= i < |VehicleValue(d, k)| && !IsWhitespace(VehicleValue(d, k)[i])
  {
    forall k {
      IsFilledIff(VehicleValue(d, k));
    }
  }

  /** Any first-slide field that is blank after trimming makes the first slide incomplete. */
  lemma BlankAccountIncomplete(u: AccountDetails, k: AccountField)
    requires !IsFilled(AccountValue(u, k))
    ensures !IsUserDetailsValid(u)
  {
  }

  /** Any second-slide field that is blank after trimming makes the second slide incomplete. */
  lemma BlankVehicleIncomplete(d: VehicleDetails, k: VehicleField)
    requires !IsFilled(VehicleValue(d, k))
    ensures !IsDriverDetailsValid(d)
  {
  }

  /** The initial form fails both checks: "Continue" and submit both refuse it as it first appears. */
  lemma InitialFormIncomplete()
    ensures !IsUserDetailsValid(INITIAL_REGISTER_STATE.userDetails)
    ensures !IsDriverDetailsValid(INITIAL_REGISTER_STATE.driverDetails)
  {
    EmptyNotFilled();
    BlankAccountIncomplete(INITIAL_REGISTER_STATE.userDetails, Email);
    BlankVehicleIncomplete(INITIAL_REGISTER_STATE.driverDetails, VehiclePhone);
  }

  /** How the register call settles: success, an `Error` with its message, or some other thrown value. */
  datatype RegisterOutcome = Registered | FailedWith(message: string) | FailedOther

  /** The form's state, replaced by its handlers. */
  class RegisterForm {
    /** 1 or 2. */
    var slide: int
    var error: string
    var registerState: RegisterState
    /** Every payload handed to the register call, in order. */
    var registerCalls: seq<RegisterState>
    var navigatedTo: seq<string>

    /**
     * The first slide's fields are rendered only on slide 1 and its "Continue"
     * checks them, so the second slide is only ever shown over a complete first slide.
     */
    ghost predicate Valid()
      reads this
    {
      (slide == 1 || slide == 2) && (slide == 2 ==> IsUserDetailsValid(registerState.userDetails))
    }

    constructor ()
      ensures Valid()
      ensures slide == 1 && error == "" && registerState == INITIAL_REGISTER_STATE
      ensures registerCalls == [] && navigatedTo == []
    {
      slide, error, registerState := 1, "", INITIAL_REGISTER_STATE;
      registerCalls, navigatedTo := [], [];
    }

    /** Editing a first-slide field (rendered on slide 1 only): that field changes and the message clears. */
    method UpdateUserDetails(k: AccountField, v: string)
      requires Valid() && slide == 1
      modifies this
      ensures Valid()
      ensures registerState == old(registerState).(userDetails := WithAccountValue(old(registerState).userDetails, k, v))
      ensures error == "" && slide == old(slide)
      ensures registerCalls == old(registerCalls) && navigatedTo == old(navigatedTo)
    {
      error := "";
      registerState := registerState.(userDetails := WithAccountValue(registerState.userDetails, k, v));
    }

    /** Editing a second-slide field (rendered on slide 2 only): that field changes and the message clears. */
    method UpdateDriverDetails(k: VehicleField, v: string)
      requires Valid() && slide == 2
      modifies this
      ensures Valid()
      ensures registerState == old(registerState).(driverDetails := WithVehicleValue(old(registerState).driverDetails, k, v))
      ensures error == "" && slide == old(slide)
      ensures registerCalls == old(registerCalls) && navigatedTo == old(navigatedTo)
    {
      error := "";
      registerState := registerState.(driverDetails := WithVehicleValue(registerState.driverDetails, k, v));
    }

    /** "Continue": onto slide 2 with a complete first slide, else the message and stay. */
    method GoToDriverSlide()
      requires Valid()
      modifies this
      ensures Valid()
      ensures IsUserDetailsValid(registerState.userDetails) ==> slide == 2 && error == ""
      ensures !IsUserDetailsValid(registerState.userDetails) ==> slide == old(slide) && error == USER_DETAILS_INCOMPLETE
      ensures registerState == old(registerState) && registerCalls == old(registerCalls) && navigatedTo == old(navigatedTo)
    {
      if !IsUserDetailsValid(registerState.userDetails) {
        error := USER_DETAILS_INCOMPLETE;
        return;
      }
      error := "";
      slide := 2;
    }

    /**
     * Submitting (the submit button is on slide 2 only), settled in one step
     * with the call's outcome: an incomplete second slide shows its message
     * and makes no call; otherwise the payload is sent, so every payload sent
     * is complete on both slides. Success goes to the login page; an `Error`
     * shows its message, anything else the fixed one.
     */
    method HandleSubmit(outcome: RegisterOutcome)
      requires Valid() && slide == 2
      modifies this
      ensures Valid()
      ensures !IsDriverDetailsValid(registerState.driverDetails) ==>
        error == DRIVER_DETAILS_INCOMPLETE && registerCalls == old(registerCalls) && navigatedTo == old(navigatedTo)
      ensures IsDriverDetailsValid(registerState.driverDetails) ==>
        && registerCalls == old(registerCalls) + [registerState]
        && (outcome.Registered? ==> error == "" && navigatedTo == old(navigatedTo) + ["/login"])
        && (outcome.FailedWith? ==> error == outcome.message && navigatedTo == old(navigatedTo))
        && (outcome.FailedOther? ==> error == REGISTRATION_FAILED && navigatedTo == old(navigatedTo))
      ensures forall i :: old(|registerCalls|) <= i < |registerCalls| ==>
        IsUserDetailsValid(registerCalls[i].userDetails) && IsDriverDetailsValid(registerCalls[i].driverDetails)
      ensures registerState == old(registerState) && slide == old(slide)
    {
      if !IsDriverDetailsValid(registerState.driverDetails) {
        error := DRIVER_DETAILS_INCOMPLETE;
        return;
      }
      error := "";
      registerCalls := registerCalls + [registerState];
      match outcome
      case Registered => navigatedTo := navigatedTo + ["/login"];
      case FailedWith(message) => error := message;
      case FailedOther => error := REGISTRATION_FAILED;
    }

    /** "Back": slide 1, message cleared, fields kept. */
    method Back()
      requires Valid()
      modifies this
      ensures Valid()
      ensures slide == 1 && error == ""
      ensures registerState == old(registerState) && registerCalls == old(registerCalls) && navigatedTo == old(navigatedTo)
    {
      error := "";
      slide := 1;
    }
  }
}
