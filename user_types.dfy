/**
 * The user vocabulary: the three user types, a stored user document and the
 * `User` record the screens work with, the update DTO and the statistics
 * record.
 */
module UserTypes {
  import opened Wrappers
  import opened ReportTypes

  const ADMIN := "ADMIN"
  const EMPLOYEE := "EMPLOYEE"
  const RESIDENT := "RESIDENT"

  const UserTypeValues: seq<string> := [ADMIN, EMPLOYEE, RESIDENT]

  predicate IsUserType(t: string) { t in UserTypeValues }

  /**
   * A user document as stored. `email`, `fullName` and `userType` are written
   * by registration and read without a guard, so they are taken to be
   * present; every other field may be missing.
   */
  datatype UserDoc = UserDoc(
    email: string,
    fullName: string,
    userType: string,
    municipalityId: Option<string>,
    phoneNumber: Option<string>,
    department: Option<string>,
    isActive: Option<bool>,
    skills: Option<seq<string>>,
    currentWorkload: Option<int>,
    maxWorkload: Option<int>,
    assignedReports: Option<seq<string>>,
    createdAt: Option<Time>,
    updatedAt: Option<Time>)

  /** `User` */
  datatype User = User(
    id: string,
    email: string,
    fullName: string,
    userType: string,
    municipalityId: Option<string>,
    phoneNumber: Option<string>,
    department: Option<string>,
    isActive: bool,
    createdAt: Time,
    skills: seq<string>,
    currentWorkload: int,
    maxWorkload: int,
    assignedReports: seq<string>)

  /** `UpdateUserDTO`: the fields an update may set; a missing field is left as stored. */
  datatype UpdateUserDTO = UpdateUserDTO(
    fullName: Option<string>,
    userType: Option<string>,
    phoneNumber: Option<string>,
    department: Option<string>,
    isActive: Option<bool>,
    skills: Option<seq<string>>,
    maxWorkload: Option<int>)

  /** `UserStats` */
  datatype UserStats = UserStats(total: nat, admins: nat, employees: nat, residents: nat, active: nat, inactive: nat)
}
