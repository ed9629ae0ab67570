/**
 * Package `user`: a role's permission bit mask, the five capability questions it
 * answers, its round trip through a database column, and the role table `GetView`.
 */
module Users {
  import opened Wrappers
  import opened Uuids

  /** Go's `int` on a 64-bit platform, the type of the mask. */
  type Int64 = x: int | -0x8000_0000_0000_0000 <= x < 0x8000_0000_0000_0000

  function Pow2(k: nat): (r: nat)
    ensures r >= 1
  {
    if k == 0 then 1 else 2 * Pow2(k - 1)
  }

  /**
   * `p >> k`: halving `k` times. Dafny's division by a positive divisor rounds toward
   * negative infinity, so this is the arithmetic shift Go applies to a signed `int`.
   */
  function Shift(p: int, k: nat): int
    decreases k
  {
    if k == 0 then p else Shift(p / 2, k - 1)
  }

  /** Bit `k` of `p`, i.e. `p & 2^k != 0`. */
  predicate Bit(p: int, k: nat) {
    Shift(p, k) % 2 == 1
  }

  /** Adding 2^n to a value adds 2^(n-k) to its shift by k. */
  lemma {:induction false} ShiftAddPow2(p: int, n: nat, k: nat)
    requires k <= n
    ensures Shift(p + Pow2(n), k) == Shift(p, k) + Pow2(n - k)
    decreases k
  {
    if k > 0 {
      assert (p + Pow2(n)) / 2 == p / 2 + Pow2(n - 1);
      ShiftAddPow2(p / 2, n - 1, k - 1);
    }
  }

  /** Adding 2^n leaves every bit below n as it was. */
  lemma BitAddPow2(p: int, n: nat, k: nat)
    requires k < n
    ensures Bit(p, k) == Bit(p + Pow2(n), k)
  {
    var half := Pow2(n - k - 1);
    assert Pow2(n - k) == 2 * half;
    ShiftAddPow2(p, n, k);
    var s := Shift(p, k);
    assert Shift(p + Pow2(n), k) == s + 2 * half;
  }

  /**
   * `Bit` reads a negative mask as its 64-bit two's-complement pattern does: the bit
   * is the same after adding 2^64, which is how Go's `&` sees a negative `int`.
   */
  lemma BitOfTwosComplement(p: int, k: nat)
    requires k < 64
    ensures Bit(p, k) == Bit(p + Pow2(64), k)
  {
    BitAddPow2(p, 64, k);
  }

  /** `DBPermissionView`: bit 1 view, 2 create, 4 update, 8 delete, 16 view-all. */
  datatype DBPermissionView = DBPermissionView(permissions: Int64) {

    /** Viewing needs bit 1, and admin content needs bit 16 as well. */
    predicate CanView(isAdminContent: bool) {
      Bit(permissions, 0) && (!isAdminContent || Bit(permissions, 4))
    }

    predicate CanCreate() { Bit(permissions, 1) }

    predicate CanUpdate() { Bit(permissions, 2) }

    predicate CanDelete() { Bit(permissions, 3) }

    predicate CanViewAll() { Bit(permissions, 4) }

    /** `Value`: the column value handed to the driver is the mask itself, as a Go `int`. */
    function Value(): (v: DriverValue)
      ensures v.GoInt? && v.n == permissions
    {
      GoInt(permissions)
    }

    /** `Value` as evidently intended: the mask converted to `int64`, a valid driver value. */
    function Int64Value(): (v: DriverValue)
      ensures v.Int64Value? && v.n == permissions
    {
      DriverValue.Int64Value(permissions)
    }
  }

  /**
   * What a `driver.Value` interface can hold. `GoInt` is a plain Go `int`, which is
   * what `Value` returns; the other cases are the types a driver value may have, and
   * the driver hands integer columns back as `Int64Value`.
   */
  datatype DriverValue =
    | Nil
    | GoInt(n: Int64)
    | Int64Value(n: Int64)
    | Float64Value(f: real)
    | BoolValue(b: bool)
    | BytesValue(bytes: seq<bv8>)
    | StringValue(s: string)

  const NonValueInt := "non-Value type int returned from Value"

  /**
   * Writing a `Valuer`'s result to a column: a value of one of the driver types passes
   * unchanged, and a plain `int`, which is not one of them, is refused.
   */
  function ColumnWrite(v: DriverValue): (r: Result<DriverValue, string>)
    ensures r.Ok? <==> !v.GoInt?
    ensures r.Ok? ==> r.value == v
    ensures r.Err? ==> r.error == NonValueInt
  {
    if v.GoInt? then Err(NonValueInt) else Ok(v)
  }

  /** What `Scan` stores: a mask for an `int64`, nothing for any other dynamic type. */
  function Scanned(value: DriverValue): (r: Option<DBPermissionView>)
    ensures r.Some? <==> value.Int64Value?
    ensures r.Some? ==> r.value.permissions == value.n
  {
    if value.Int64Value? then Some(DBPermissionView(value.n)) else None
  }

  const InvalidType := "invalid type for DBPermissionView"

  /** A `*DBPermissionView`: the variable that `Scan` writes through its receiver. */
  class PermissionCell {
    var view: DBPermissionView

    constructor (view: DBPermissionView)
      ensures this.view == view
    {
      this.view := view;
    }

    /** `Scan`: an `int64` replaces the mask; any other type is an error and changes nothing. */
    method Scan(value: DriverValue) returns (err: Option<string>)
      modifies this
      ensures value.Int64Value? ==> err == None && view == DBPermissionView(value.n)
      ensures !value.Int64Value? ==> err == Some(InvalidType) && view == old(view)
    {
      var scanned := Scanned(value);
      if scanned.Some? {
        view := scanned.value;
        err := None;
      } else {
        err := Some(InvalidType);
      }
    }
  }

  /** As written: the column write of `Value`'s plain `int` is refused, and Scan refuses it too. */
  lemma ValueWriteRefused(pv: DBPermissionView)
    ensures ColumnWrite(pv.Value()) == Err(NonValueInt)
    ensures Scanned(pv.Value()) == None
  {
  }

  /** Corrected: the `int64` value is written unchanged and scans back to the same view. */
  lemma ValueScanRoundTrip(pv: DBPermissionView)
    ensures ColumnWrite(pv.Int64Value()) == Ok(pv.Int64Value())
    ensures Scanned(ColumnWrite(pv.Int64Value()).value) == Some(pv)
  {
  }

  /**
   * A column write of `v` followed by `Scan` of what was stored: a refused write ends
   * there, and otherwise `Scan` decides. The source's `Value` yields a plain `int` and
   * its corrected form an `int64`; for other driver types the INT column is taken to
   * hand back what was written, where a real database would convert it.
   */
  method WriteAndScan(v: DriverValue, cell: PermissionCell) returns (err: Option<string>)
    modifies cell
    ensures v.GoInt? ==> err == Some(NonValueInt) && cell.view == old(cell.view)
    ensures v.Int64Value? ==> err == None && cell.view == DBPermissionView(v.n)
    ensures !v.GoInt? && !v.Int64Value? ==> err == Some(InvalidType) && cell.view == old(cell.view)
  {
    var written := ColumnWrite(v);
    if written.Err? {
      return Some(written.error);
    }
    err := cell.Scan(written.value);
  }

  /** As written: storing a view through `Value` fails, and the variable keeps its view. */
  method StoreAndLoad(pv: DBPermissionView, cell: PermissionCell) returns (err: Option<string>)
    modifies cell
    ensures err == Some(NonValueInt) && cell.view == old(cell.view)
  {
    err := WriteAndScan(pv.Value(), cell);
  }

  /** Corrected: storing through the `int64` value and scanning it back leaves that view. */
  method StoreAndLoadInt64(pv: DBPermissionView, cell: PermissionCell) returns (err: Option<string>)
    modifies cell
    ensures err == None && cell.view == pv
  {
    err := WriteAndScan(pv.Int64Value(), cell);
  }

  /** The users `User` records describe. */
  class User {
    var id: Uuid
    var username: string
    var identifier: string
    var identifierId: Uuid
    /** `None` while the lazily computed view has not been filled in. */
    var permissions: Option<DBPermissionView>

    constructor (id: Uuid, username: string, identifier: string, identifierId: Uuid,
                 permissions: Option<DBPermissionView>)
      ensures this.id == id && this.username == username && this.identifier == identifier
      ensures this.identifierId == identifierId && this.permissions == permissions
    {
      this.id := id;
      this.username := username;
      this.identifier := identifier;
      this.identifierId := identifierId;
      this.permissions := permissions;
    }
  }

  /** `GetView`: "admin" gets every bit, "user" view, create and update, anyone else view. */
  function GetView(identifier: string): (pv: DBPermissionView)
    ensures Capabilities(pv) == PolicyRow(RoleOf(identifier))
  {
    match identifier
    case "admin" => DBPermissionView(31)
    case "user" => DBPermissionView(7)
    case _ => DBPermissionView(1)
  }

  // ---------------------------------------------------------------------------
  // The policy table, written independently of the bit masks.

  datatype Role = Admin | RegularUser | Default

  function RoleOf(identifier: string): Role {
    if identifier == "admin" then Admin
    else if identifier == "user" then RegularUser
    else Default
  }

  /** The answers to the five capability questions (view split by admin content). */
  datatype Grants = Grants(view: bool, viewAdmin: bool, create: bool, update: bool,
                           delete: bool, viewAll: bool)

  function Capabilities(pv: DBPermissionView): Grants {
    Grants(pv.CanView(false), pv.CanView(true), pv.CanCreate(), pv.CanUpdate(),
           pv.CanDelete(), pv.CanViewAll())
  }

  function PolicyRow(role: Role): Grants {
    match role
    case Admin => Grants(true, true, true, true, true, true)
    case RegularUser => Grants(true, false, true, true, false, false)
    case Default => Grants(true, false, false, false, false, false)
  }

  /** `a` grants everything `b` grants. */
  predicate Includes(a: Grants, b: Grants) {
    && (b.view ==> a.view) && (b.viewAdmin ==> a.viewAdmin) && (b.create ==> a.create)
    && (b.update ==> a.update) && (b.delete ==> a.delete) && (b.viewAll ==> a.viewAll)
  }

  /** Capabilities grow from the default role to "user" to "admin". */
  lemma RolesAreNested(other: string)
    requires other != "admin" && other != "user"
    ensures Includes(Capabilities(GetView("user")), Capabilities(GetView(other)))
    ensures Includes(Capabilities(GetView("admin")), Capabilities(GetView("user")))
    ensures !Includes(Capabilities(GetView(other)), Capabilities(GetView("user")))
    ensures !Includes(Capabilities(GetView("user")), Capabilities(GetView("admin")))
  {
  }

  /** For every mask, viewing admin content implies plain viewing and view-all. */
  lemma ViewAdminImpliesViewAndViewAll(pv: DBPermissionView)
    ensures pv.CanView(true) ==> pv.CanView(false) && pv.CanViewAll()
  {
  }

  /** A scanned mask of -1 has every bit set, so it grants what "admin" gets. */
  lemma MinusOneGrantsEverything()
    ensures Capabilities(DBPermissionView(-1)) == PolicyRow(Admin)
  {
  }

  /** Every mask `GetView` hands out grants plain viewing. */
  lemma EveryRoleMayView(identifier: string)
    ensures GetView(identifier).CanView(false)
  {
  }
}
