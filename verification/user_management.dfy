/** The user management page: the filtered user list, the count statistics, the edit form
    with its defaults, saving and deleting a user, and the CSV export. */
module UserManagement {
  import opened JsValues
  import AccessGate

  /** A row of the `profiles` table as the page receives it. `positionName` is the joined
      position's `name_id`. */
  datatype UserRow = UserRow(
    id: string,
    name: Option<string>, fullName: Option<string>, email: Option<string>,
    phone: Option<string>, role: Option<string>, positionId: Option<string>,
    department: Option<string>, employeeId: Option<string>, salary: Option<int>,
    status: Option<string>, joinDate: Option<string>, contractType: Option<string>,
    bankId: Option<string>, bankAccountNumber: Option<string>, bankAccountName: Option<string>,
    positionName: Option<string>, title: Option<string>)

  /** The edit form's fields. */
  datatype FormData = FormData(
    name: string, fullName: string, email: string, phone: string, role: string,
    positionId: string, department: string, employeeId: string, salary: int,
    status: string, joinDate: string, contractType: string, bankId: string,
    bankAccountNumber: string, bankAccountName: string)

  /** The search box and the three drop-down filters; the empty string means "any". */
  datatype Query = Query(term: string, role: string, department: string, status: string)

  datatype Stats = Stats(total: nat, active: nat, inactive: nat, admins: nat, employees: nat)

  /** An update the page sends: set the form's columns on the row with this id. */
  datatype UpdateRequest = UpdateRequest(id: string, form: FormData)

  const RegistrationRequired := "Pembuatan pengguna baru harus dilakukan melalui halaman registrasi"
  const LoadFailed := "Gagal memuat data pengguna"
  const SaveFailedPrefix := "Gagal menyimpan pengguna: "
  const DeleteFailedPrefix := "Gagal menghapus pengguna: "
  const Updated := "Pengguna berhasil diperbarui!"
  const Deleted := "Pengguna berhasil dihapus!"

  // ---------------------------------------------------------------- search and filters

  function LowerChar(c: char): char {
    if 'A' <= c <= 'Z' then (c as int + 32) as char else c
  }

  /** `toLowerCase`, on ASCII letters: each capital becomes its own lower-case letter (32 code
      points higher), every other character is kept, and no capital is left. */
  function Lower(s: string): (r: string)
    ensures |r| == |s|
    ensures forall i :: 0 <= i < |s| && 'A' <= s[i] <= 'Z' ==> 'a' <= r[i] <= 'z' && r[i] as int == s[i] as int + 32
    ensures forall i :: 0 <= i < |s| && !('A' <= s[i] <= 'Z') ==> r[i] == s[i]
    ensures forall i :: 0 <= i < |r| ==> !('A' <= r[i] <= 'Z')
    ensures forall i :: 0 <= i < |s| && r[i] != s[i] ==> 'A' <= s[i] <= 'Z'
  {
    seq(|s|, i requires 0 <= i < |s| => LowerChar(s[i]))
  }

  /** Lower-casing twice is lower-casing once, so a term and its lower-cased form search
      alike. */
  lemma LowerIdempotent(s: string)
    ensures Lower(Lower(s)) == Lower(s)
  {
    var l := Lower(s);
    forall i | 0 <= i < |l|
      ensures Lower(l)[i] == l[i]
    {
      assert !('A' <= l[i] <= 'Z');
    }
  }

  /** `hay.includes(needle)`, scanning the start positions left to right. The empty needle
      is found everywhere, and a needle longer than the text nowhere. */
  function Includes(hay: string, needle: string): (r: bool)
    ensures needle == [] ==> r
    ensures r ==> |needle| <= |hay|
    decreases |hay|
  {
    if |needle| > |hay| then false
    else if hay[..|needle|] == needle then true
    else Includes(hay[1..], needle)
  }

  /** The reference meaning of `includes`: `needle` occurs in `hay` at some position. */
  ghost predicate Occurs(hay: string, needle: string) {
    exists i :: OccursAt(hay, needle, i)
  }

  ghost predicate OccursAt(hay: string, needle: string, i: int) {
    0 <= i <= |hay| - |needle| && hay[i..i + |needle|] == needle
  }

  lemma {:induction false} IncludesIff(hay: string, needle: string)
    ensures Includes(hay, needle) <==> Occurs(hay, needle)
    decreases |hay|
  {
    if |needle| > |hay| {
    } else if hay[..|needle|] == needle {
      assert OccursAt(hay, needle, 0);
    } else {
      IncludesIff(hay[1..], needle);
      if Occurs(hay, needle) {
        var i :| OccursAt(hay, needle, i);
        assert i != 0;
        assert hay[1..][i - 1..i - 1 + |needle|] == hay[i..i + |needle|];
        assert OccursAt(hay[1..], needle, i - 1);
      }
      if Occurs(hay[1..], needle) {
        var i :| OccursAt(hay[1..], needle, i);
        assert hay[i + 1..i + 1 + |needle|] == hay[1..][i..i + |needle|];
        assert OccursAt(hay, needle, i + 1);
      }
    }
  }

  /** `field?.toLowerCase().includes(term.toLowerCase())`: a missing field never matches. */
  predicate FieldMatches(field: Option<string>, term: string) {
    field.Some? && Includes(Lower(field.value), Lower(term))
  }

  predicate MatchesSearch(u: UserRow, term: string) {
    FieldMatches(u.name, term) || FieldMatches(u.email, term) || FieldMatches(u.employeeId, term)
  }

  /** An empty filter (falsy) accepts anything; otherwise the field must equal it. */
  predicate FilterAccepts(filter: string, field: Option<string>) {
    filter == "" || field == Some(filter)
  }

  predicate Passes(u: UserRow, q: Query) {
    MatchesSearch(u, q.term)
    && FilterAccepts(q.role, u.role)
    && FilterAccepts(q.department, u.department)
    && FilterAccepts(q.status, u.status)
  }

  /** `users.filter(...)`: never longer than the list, and every listed user passes. */
  function FilterUsers(users: seq<UserRow>, q: Query): (r: seq<UserRow>)
    ensures |r| <= |users|
    ensures forall u :: u in r ==> u in users && Passes(u, q)
  {
    if users == [] then []
    else (if Passes(users[0], q) then [users[0]] else []) + FilterUsers(users[1..], q)
  }

  /** `a` is `b` with some elements dropped, the rest kept in order. */
  predicate IsSubsequence<T(==)>(a: seq<T>, b: seq<T>)
    decreases |b|
  {
    if a == [] then true
    else if b == [] then false
    else if a[0] == b[0] then IsSubsequence(a[1..], b[1..])
    else IsSubsequence(a, b[1..])
  }

  /** A user is listed exactly when it is in `users` and passes: the search term occurs,
      ignoring case, in its name, email or employee id, and each non-empty filter equals the
      user's field. The list keeps the users' order. */
  lemma {:induction false} FilterUsersSpec(users: seq<UserRow>, q: Query)
    ensures forall u :: u in FilterUsers(users, q) <==> u in users && Passes(u, q)
    ensures IsSubsequence(FilterUsers(users, q), users)
  {
    if users != [] {
      FilterUsersSpec(users[1..], q);
      assert users == [users[0]] + users[1..];
      var rest := FilterUsers(users[1..], q);
      if Passes(users[0], q) {
        assert ([users[0]] + rest)[1..] == rest;
      } else {
        assert [] + rest == rest;
        SubsequenceOfTail(rest, users);
      }
    }
  }

  lemma {:induction false} SubsequenceOfTail<T>(a: seq<T>, b: seq<T>)
    requires b != [] && IsSubsequence(a, b[1..])
    ensures IsSubsequence(a, b)
    decreases |b|
  {
    if a != [] && a[0] == b[0] {
      SubsequenceDropHead(a, b[1..]);
      SubsequenceOfTail(a[1..], b[1..]);
    }
  }

  lemma {:induction false} SubsequenceDropHead<T>(a: seq<T>, b: seq<T>)
    requires a != [] && IsSubsequence(a, b)
    ensures IsSubsequence(a[1..], b[1..])
    decreases |b|
  {
    if a[0] != b[0] {
      SubsequenceDropHead(a, b[1..]);
      SubsequenceOfTail(a[1..], b[1..]);
    }
  }

  /** The test applied to each user, spelled out on the fields. */
  lemma PassesIff(u: UserRow, q: Query)
    ensures Passes(u, q) <==>
      ((u.name.Some? && Occurs(Lower(u.name.value), Lower(q.term)))
        || (u.email.Some? && Occurs(Lower(u.email.value), Lower(q.term)))
        || (u.employeeId.Some? && Occurs(Lower(u.employeeId.value), Lower(q.term))))
      && (q.role == "" || u.role == Some(q.role))
      && (q.department == "" || u.department == Some(q.department))
      && (q.status == "" || u.status == Some(q.status))
  {
    if u.name.Some? { IncludesIff(Lower(u.name.value), Lower(q.term)); }
    if u.email.Some? { IncludesIff(Lower(u.email.value), Lower(q.term)); }
    if u.employeeId.Some? { IncludesIff(Lower(u.employeeId.value), Lower(q.term)); }
  }

  /** With an empty search and no filters, the list keeps exactly the users that have a name,
      an email or an employee id; a user with none of the three is never listed. */
  lemma EmptyQueryKeepsIdentifiable(users: seq<UserRow>)
    ensures forall u :: u in FilterUsers(users, Query("", "", "", "")) <==>
      u in users && (u.name.Some? || u.email.Some? || u.employeeId.Some?)
  {
    FilterUsersSpec(users, Query("", "", "", ""));
    forall u: UserRow
      ensures Passes(u, Query("", "", "", "")) <==> (u.name.Some? || u.email.Some? || u.employeeId.Some?)
    {
      PassesIff(u, Query("", "", "", ""));
      if u.name.Some? { assert OccursAt(Lower(u.name.value), Lower(""), 0); }
      if u.email.Some? { assert OccursAt(Lower(u.email.value), Lower(""), 0); }
      if u.employeeId.Some? { assert OccursAt(Lower(u.employeeId.value), Lower(""), 0); }
    }
  }

  // ---------------------------------------------------------------- statistics

  /** The tests behind the five counts, and the roles counted in neither role count. */
  datatype Criterion = StatusActive | StatusNotActive | RoleAdmin | RoleEmployee | RoleOther

  predicate Meets(u: UserRow, c: Criterion) {
    match c
    case StatusActive => u.status == Some("active")
    case StatusNotActive => u.status != Some("active")
    case RoleAdmin => u.role == Some("admin")
    case RoleEmployee => u.role == Some("karyawan")
    case RoleOther => u.role != Some("admin") && u.role != Some("karyawan")
  }

  /** `data.filter(test).length`. */
  function Count(data: seq<UserRow>, c: Criterion): (n: nat)
    ensures n <= |data|
  {
    if data == [] then 0
    else (if Meets(data[0], c) then 1 else 0) + Count(data[1..], c)
  }

  /** Every user is either active or inactive, and either an admin, an employee or of
      another role (`kepala`, or none). */
  lemma {:induction false} CountsPartition(data: seq<UserRow>)
    ensures Count(data, StatusActive) + Count(data, StatusNotActive) == |data|
    ensures Count(data, RoleAdmin) + Count(data, RoleEmployee) + Count(data, RoleOther) == |data|
  {
    if data != [] {
      CountsPartition(data[1..]);
    }
  }

  /** The counts shown above the list, for the fetched users: active plus inactive is the
      total, and admins plus employees never exceed it, a user of any other role being counted
      in neither. */
  function ComputeStats(data: seq<UserRow>): (s: Stats)
    ensures s.total == |data|
    ensures s.active == Count(data, StatusActive) && s.inactive == Count(data, StatusNotActive)
    ensures s.admins == Count(data, RoleAdmin) && s.employees == Count(data, RoleEmployee)
    ensures s.active + s.inactive == s.total
    ensures s.admins + s.employees + Count(data, RoleOther) == s.total
    ensures s.admins + s.employees <= s.total
  {
    CountsPartition(data);
    Stats(|data|, Count(data, StatusActive), Count(data, StatusNotActive),
      Count(data, RoleAdmin), Count(data, RoleEmployee))
  }

  // ---------------------------------------------------------------- the edit form

  /** The form after a reset: empty strings, role `karyawan`, status `active`, contract
      `permanent`, salary 0 and today's date. */
  function DefaultForm(today: string): (f: FormData)
    ensures f.role == "karyawan" && f.status == "active" && f.contractType == "permanent"
    ensures f.salary == 0 && f.joinDate == today
    ensures f.name == "" && f.fullName == "" && f.email == "" && f.phone == ""
    ensures f.positionId == "" && f.department == "" && f.employeeId == ""
    ensures f.bankId == "" && f.bankAccountNumber == "" && f.bankAccountName == ""
  {
    FormData("", "", "", "", "karyawan", "", "", "", 0, "active", today, "permanent", "", "", "")
  }

  /** `handleEdit`'s copy of a user into the form: each field, or its default when missing or
      empty. The role, status and contract type are never empty, and the join date only when
      the date of today is. */
  function FormFromUser(u: UserRow, today: string): (f: FormData)
    ensures f.role != "" && f.status != "" && f.contractType != ""
    ensures today != "" ==> f.joinDate != ""
  {
    FormData(
      OrElse(u.name, ""), OrElse(u.fullName, ""), OrElse(u.email, ""), OrElse(u.phone, ""),
      OrElse(u.role, "karyawan"), OrElse(u.positionId, ""), OrElse(u.department, ""),
      OrElse(u.employeeId, ""), OrZero(u.salary), OrElse(u.status, "active"),
      OrElse(u.joinDate, today), OrElse(u.contractType, "permanent"), OrElse(u.bankId, ""),
      OrElse(u.bankAccountNumber, ""), OrElse(u.bankAccountName, ""))
  }

  /** Every field present and non-empty is copied as is; a missing or empty one takes the same
      default that a reset gives. */
  lemma FormFromUserFields(u: UserRow, today: string)
    ensures var f, d := FormFromUser(u, today), DefaultForm(today);
      && f.name == (if u.name.Some? && u.name.value != "" then u.name.value else d.name)
      && f.email == (if u.email.Some? && u.email.value != "" then u.email.value else d.email)
      && f.role == (if u.role.Some? && u.role.value != "" then u.role.value else d.role)
      && f.status == (if u.status.Some? && u.status.value != "" then u.status.value else d.status)
      && f.contractType == (if u.contractType.Some? && u.contractType.value != "" then u.contractType.value else d.contractType)
      && f.joinDate == (if u.joinDate.Some? && u.joinDate.value != "" then u.joinDate.value else d.joinDate)
      && f.salary == (if u.salary.Some? then u.salary.value else d.salary)
  {
  }

  /** A user with no field set fills the form with exactly the reset defaults. */
  lemma BlankUserGivesDefaults(id: string, today: string)
    ensures FormFromUser(UserRow(id, None, None, None, None, None, None, None, None, None,
      None, None, None, None, None, None, None, None), today) == DefaultForm(today)
  {
  }

  /** What an update writes on one row: the form's columns, the rest of the row as it was. */
  function UpdatedRow(row: UserRow, f: FormData): UserRow {
    row.(name := Some(f.name), fullName := Some(f.fullName), email := Some(f.email),
      phone := Some(f.phone), role := Some(f.role), positionId := Some(f.positionId),
      department := Some(f.department), employeeId := Some(f.employeeId),
      salary := Some(f.salary), status := Some(f.status), joinDate := Some(f.joinDate),
      contractType := Some(f.contractType), bankId := Some(f.bankId),
      bankAccountNumber := Some(f.bankAccountNumber), bankAccountName := Some(f.bankAccountName))
  }

  /** `.update(form).eq('id', id)` on a table. */
  function ApplyUpdate(table: seq<UserRow>, req: UpdateRequest): (r: seq<UserRow>)
    ensures |r| == |table|
    ensures forall i :: 0 <= i < |table| && table[i].id != req.id ==> r[i] == table[i]
    ensures forall i :: 0 <= i < |table| && table[i].id == req.id ==>
      r[i] == UpdatedRow(table[i], req.form)
  {
    seq(|table|, i requires 0 <= i < |table| =>
      if table[i].id == req.id then UpdatedRow(table[i], req.form) else table[i])
  }

  /** An update keeps every row's id, and a row it touches is then in the form's image: its
      form, read back through `handleEdit`, is the form that was saved. Empty text fields and a
      zero salary read back as themselves; only the four fields with a non-empty default must
      be set. */
  lemma UpdateRoundTrip(table: seq<UserRow>, req: UpdateRequest, today: string, i: nat)
    requires i < |table| && table[i].id == req.id
    requires req.form.role != "" && req.form.status != "" && req.form.joinDate != ""
      && req.form.contractType != ""
    ensures ApplyUpdate(table, req)[i].id == table[i].id
    ensures FormFromUser(ApplyUpdate(table, req)[i], today) == req.form
  {
  }

  /** Read back through `handleEdit`, a saved row gives the saved form except that an emptied
      role, status, join date or contract type comes back as its default: `karyawan`,
      `active`, the date of today and `permanent`. */
  lemma UpdateReadsBackDefaults(table: seq<UserRow>, req: UpdateRequest, today: string, i: nat)
    requires i < |table| && table[i].id == req.id
    ensures FormFromUser(ApplyUpdate(table, req)[i], today) == req.form.(
      role := if req.form.role == "" then "karyawan" else req.form.role,
      status := if req.form.status == "" then "active" else req.form.status,
      joinDate := if req.form.joinDate == "" then today else req.form.joinDate,
      contractType := if req.form.contractType == "" then "permanent" else req.form.contractType)
  {
  }

  /** `.delete().eq('id', id)` on a table. */
  function DeleteRows(table: seq<UserRow>, id: string): (r: seq<UserRow>)
    ensures forall u :: u in r <==> u in table && u.id != id
  {
    if table == [] then []
    else (if table[0].id == id then [] else [table[0]]) + DeleteRows(table[1..], id)
  }

  // ---------------------------------------------------------------- CSV export

  const CsvHeaders: seq<string> :=
    ["Nama", "Email", "Telepon", "Jabatan", "Departemen", "Status", "Tanggal Bergabung"]

  /** One user's row: the position's name, else the title, else empty. */
  function CsvRow(u: UserRow): (row: seq<string>)
    ensures |row| == 7
  {
    [OrElse(u.name, ""), OrElse(u.email, ""), OrElse(u.phone, ""),
     OrElse(u.positionName, OrElse(u.title, "")), OrElse(u.department, ""),
     OrElse(u.status, ""), OrElse(u.joinDate, "")]
  }

  function CsvRows(users: seq<UserRow>): (rows: seq<seq<string>>)
    ensures |rows| == |users| + 1 && rows[0] == CsvHeaders
    ensures forall i :: 0 <= i < |users| ==> rows[i + 1] == CsvRow(users[i])
    ensures forall i :: 0 <= i < |rows| ==> |rows[i]| == 7
  {
    [CsvHeaders] + seq(|users|, i requires 0 <= i < |users| => CsvRow(users[i]))
  }

  /** `parts.join(sep)`. */
  function Join(parts: seq<string>, sep: char): string {
    if parts == [] then ""
    else if |parts| == 1 then parts[0]
    else parts[0] + [sep] + Join(parts[1..], sep)
  }

  /** Splitting at every `sep`, the inverse of `Join` on parts without `sep`. */
  function Split(s: string, sep: char): (parts: seq<string>)
    ensures |parts| >= 1
  {
    if s == [] then [""]
    else
      var rest := Split(s[1..], sep);
      if s[0] == sep then [""] + rest else [[s[0]] + rest[0]] + rest[1..]
  }

  /** The file: the rows joined by `,` and the lines by `\n`, with no quoting. Nothing is
      produced for an empty list. */
  function ExportCsv(filtered: seq<UserRow>): (content: Option<string>)
    ensures content.None? <==> filtered == []
  {
    if |filtered| == 0 then None
    else Some(Join(seq(|filtered| + 1, i requires 0 <= i < |filtered| + 1 =>
      Join(CsvRows(filtered)[i], ',')), '\n'))
  }

  /** Reading the file back line by line and field by field. */
  function ParseCsv(content: string): seq<seq<string>> {
    var lines := Split(content, '\n');
    seq(|lines|, i requires 0 <= i < |lines| => Split(lines[i], ','))
  }

  lemma {:induction false} SplitNoSep(a: string, sep: char)
    requires sep !in a
    ensures Split(a, sep) == [a]
  {
    if a != [] {
      SplitNoSep(a[1..], sep);
      assert [a[0]] + a[1..] == a;
    }
  }

  lemma {:induction false} SplitAtSep(a: string, b: string, sep: char)
    requires sep !in a
    ensures Split(a + [sep] + b, sep) == [a] + Split(b, sep)
  {
    if a == [] {
      assert a + [sep] + b == [sep] + b;
      assert ([sep] + b)[1..] == b;
    } else {
      assert (a + [sep] + b)[1..] == a[1..] + [sep] + b;
      SplitAtSep(a[1..], b, sep);
      assert [a[0]] + a[1..] == a;
    }
  }

  /** Joining parts that do not contain the separator and splitting again gives the parts
      back. */
  lemma {:induction false} SplitJoin(parts: seq<string>, sep: char)
    requires |parts| >= 1
    requires forall i :: 0 <= i < |parts| ==> sep !in parts[i]
    ensures Split(Join(parts, sep), sep) == parts
  {
    if |parts| == 1 {
      SplitNoSep(parts[0], sep);
    } else {
      SplitJoin(parts[1..], sep);
      SplitAtSep(parts[0], Join(parts[1..], sep), sep);
      assert [parts[0]] + parts[1..] == parts;
    }
  }

  lemma {:induction false} JoinAvoids(parts: seq<string>, sep: char, c: char)
    requires c != sep
    requires forall i :: 0 <= i < |parts| ==> c !in parts[i]
    ensures c !in Join(parts, sep)
  {
    if |parts| > 1 {
      JoinAvoids(parts[1..], sep, c);
    }
  }

  /** No field of these users contains `,` or a line break. */
  predicate Plain(users: seq<UserRow>) {
    forall i, k :: 0 <= i < |users| && 0 <= k < 7 ==>
      ',' !in CsvRow(users[i])[k] && '\n' !in CsvRow(users[i])[k]
  }

  /** The header and every row of plain users are free of `,` and line breaks. */
  lemma RowPlain(filtered: seq<UserRow>, i: nat)
    requires Plain(filtered) && i <= |filtered|
    ensures forall k :: 0 <= k < |CsvRows(filtered)[i]| ==>
      ',' !in CsvRows(filtered)[i][k] && '\n' !in CsvRows(filtered)[i][k]
  {
    if i > 0 {
      assert CsvRows(filtered)[i] == CsvRow(filtered[i - 1]);
    }
  }

  /** When no field contains `,` or a line break, the file reads back as the header row and one
      seven-field row per listed user, in order. */
  lemma CsvRoundTrip(filtered: seq<UserRow>)
    requires filtered != [] && Plain(filtered)
    ensures ParseCsv(ExportCsv(filtered).value) == CsvRows(filtered)
  {
    var rows := CsvRows(filtered);
    var lines := seq(|filtered| + 1, i requires 0 <= i < |filtered| + 1 => Join(rows[i], ','));
    assert ExportCsv(filtered).value == Join(lines, '\n');
    forall i | 0 <= i < |rows|
      ensures '\n' !in lines[i] && Split(lines[i], ',') == rows[i]
    {
      RowPlain(filtered, i);
      JoinAvoids(rows[i], ',', '\n');
      SplitJoin(rows[i], ',');
    }
    SplitJoin(lines, '\n');
  }

  /** Without quoting, a comma inside a field shifts the columns: a first field `a,b` reads
      back as the two fields `a` and `b`, and every later field one column further right. */
  lemma CommaInFieldShiftsColumns(a: string, b: string, rest: seq<string>)
    requires ',' !in a && ',' !in b
    requires forall i :: 0 <= i < |rest| ==> ',' !in rest[i]
    ensures Split(Join([a + [','] + b] + rest, ','), ',') == [a, b] + rest
    ensures |Split(Join([a + [','] + b] + rest, ','), ',')| == |rest| + 2
  {
    var row := [a + [','] + b] + rest;
    var tail := [b] + rest;
    assert Join(row, ',') == a + [','] + Join(tail, ',') by {
      if rest != [] {
        assert row[1..] == rest && tail[1..] == rest;
      }
    }
    SplitAtSep(a, Join(tail, ','), ',');
    assert forall i :: 0 <= i < |tail| ==> ',' !in tail[i] by {
      forall i | 0 <= i < |tail| ensures ',' !in tail[i] {
        if i > 0 { assert tail[i] == rest[i - 1]; }
      }
    }
    SplitJoin(tail, ',');
    assert Split(Join(row, ','), ',') == [a] + tail;
    assert [a] + tail == [a, b] + rest;
  }

  // ---------------------------------------------------------------- the page

  class UserManagementPage {
    var loading: bool
    var contentLoading: bool
    var currentUser: Option<string>
    var users: seq<UserRow>
    var stats: Stats
    var query: Query
    var showAddModal: bool
    var editingUser: Option<UserRow>
    var error: Option<string>
    var success: Option<string>
    var formData: FormData

    constructor (today: string)
      ensures loading && !contentLoading && currentUser == None && users == []
      ensures stats == Stats(0, 0, 0, 0, 0) && query == Query("", "", "", "")
      ensures !showAddModal && editingUser == None && error == None && success == None
      ensures formData == DefaultForm(today)
    {
      loading := true;
      contentLoading := false;
      currentUser := None;
      users := [];
      stats := Stats(0, 0, 0, 0, 0);
      query := Query("", "", "", "");
      showAddModal := false;
      editingUser := None;
      error := None;
      success := None;
      formData := DefaultForm(today);
    }

    /** The list on screen. */
    function FilteredUsers(): seq<UserRow>
      reads this
    {
      FilterUsers(users, query)
    }

    /** The fetched users and their counts; a fetch that threw keeps the old list and sets the
        load error. */
    method FetchUsers(result: Outcome<seq<UserRow>>)
      modifies this
      ensures !contentLoading
      ensures result.Ok? ==>
        (users == result.value && stats == ComputeStats(result.value) && error == old(error))
      ensures result.Threw? ==> users == old(users) && stats == old(stats) && error == Some(LoadFailed)
      ensures loading == old(loading) && currentUser == old(currentUser) && query == old(query)
      ensures showAddModal == old(showAddModal) && editingUser == old(editingUser)
      ensures success == old(success) && formData == old(formData)
    {
      contentLoading := true;
      if result.Ok? {
        users := result.value;
        stats := ComputeStats(result.value);
      } else {
        error := Some(LoadFailed);
      }
      contentLoading := false;
    }

    /** The mount check: only an admin gets the user list; loading ends on every path. */
    method CheckAccess(user: Outcome<Option<string>>, profile: Outcome<Option<AccessGate.Profile>>,
                       fetched: Outcome<seq<UserRow>>)
      returns (navigateTo: Option<string>)
      modifies this
      ensures !loading
      ensures query == old(query) && showAddModal == old(showAddModal)
      ensures editingUser == old(editingUser) && success == old(success) && formData == old(formData)
      ensures var d := AccessGate.Gate(user, profile);
        && (d.NavigateTo? ==>
              (navigateTo == Some(d.path) && contentLoading == old(contentLoading)
               && currentUser == old(currentUser) && users == old(users) && stats == old(stats)
               && error == old(error)))
        && (d.Admitted? ==>
              (navigateTo == None && currentUser == Some(d.userId) && !contentLoading
               && (fetched.Ok? ==>
                     users == fetched.value && stats == ComputeStats(fetched.value) && error == old(error))
               && (fetched.Threw? ==>
                     users == old(users) && stats == old(stats) && error == Some(LoadFailed))))
    {
      var d := AccessGate.Gate(user, profile);
      if d.NavigateTo? {
        navigateTo := Some(d.path);
      } else {
        navigateTo := None;
        currentUser := Some(d.userId);
        FetchUsers(fetched);
      }
      loading := false;
    }

    /** Back to the defaults: blank form, nothing being edited, modal closed, error cleared. */
    method ResetForm(today: string)
      modifies this
      ensures formData == DefaultForm(today) && editingUser == None && !showAddModal && error == None
      ensures loading == old(loading) && contentLoading == old(contentLoading)
      ensures currentUser == old(currentUser) && users == old(users) && stats == old(stats)
      ensures query == old(query) && success == old(success)
    {
      formData := DefaultForm(today);
      editingUser := None;
      showAddModal := false;
      error := None;
    }

    /** Open the modal on a user, its fields copied into the form. */
    method HandleEdit(u: UserRow, today: string)
      modifies this
      ensures formData == FormFromUser(u, today) && editingUser == Some(u) && showAddModal
      ensures loading == old(loading) && contentLoading == old(contentLoading) && error == old(error)
      ensures currentUser == old(currentUser) && users == old(users) && stats == old(stats)
      ensures query == old(query) && success == old(success)
    {
      formData := FormFromUser(u, today);
      editingUser := Some(u);
      showAddModal := true;
    }

    /** Saving the form. Without a user being edited nothing is written and the page asks for
        the registration page instead. Otherwise the form is written to the row with the edited
        user's id; on success the form is reset and the list fetched again, on failure the error
        is shown and the form kept. */
    method HandleSubmit(today: string, update: Outcome<()>, refetch: Outcome<seq<UserRow>>)
      returns (request: Option<UpdateRequest>)
      modifies this
      ensures !contentLoading
      ensures loading == old(loading) && currentUser == old(currentUser) && query == old(query)
      ensures old(editingUser).None? ==>
        (request == None && error == Some(RegistrationRequired)
         && formData == old(formData) && editingUser == old(editingUser)
         && showAddModal == old(showAddModal) && users == old(users) && stats == old(stats)
         && success == old(success))
      ensures old(editingUser).Some? ==> request == Some(UpdateRequest(old(editingUser).value.id, old(formData)))
      ensures old(editingUser).Some? && update.Threw? ==>
        (error == Some(SaveFailedPrefix + update.message) && formData == old(formData)
         && editingUser == old(editingUser) && showAddModal == old(showAddModal)
         && users == old(users) && stats == old(stats) && success == old(success))
      ensures old(editingUser).Some? && update.Ok? ==>
        (success == Some(Updated) && formData == DefaultForm(today) && editingUser == None
         && !showAddModal
         && (refetch.Ok? ==> users == refetch.value && stats == ComputeStats(refetch.value) && error == None)
         && (refetch.Threw? ==> users == old(users) && stats == old(stats) && error == Some(LoadFailed)))
    {
      error := None;
      contentLoading := true;
      if editingUser.None? {
        error := Some(RegistrationRequired);
        request := None;
      } else {
        request := Some(UpdateRequest(editingUser.value.id, formData));
        if update.Threw? {
          error := Some(SaveFailedPrefix + update.message);
        } else {
          success := Some(Updated);
          ResetForm(today);
          FetchUsers(refetch);
        }
      }
      contentLoading := false;
    }

    /** Deleting a user after the confirmation dialog; a refusal does nothing at all. */
    method HandleDelete(userId: string, confirmed: bool, delete: Outcome<()>, refetch: Outcome<seq<UserRow>>)
      returns (request: Option<string>)
      modifies this
      ensures !confirmed ==> request == None && unchanged(this)
      ensures confirmed ==> request == Some(userId) && !contentLoading
      ensures confirmed && delete.Threw? ==>
        (error == Some(DeleteFailedPrefix + delete.message) && users == old(users)
         && stats == old(stats) && success == old(success))
      ensures confirmed && delete.Ok? ==>
        (success == Some(Deleted)
         && (refetch.Ok? ==> users == refetch.value && stats == ComputeStats(refetch.value) && error == old(error))
         && (refetch.Threw? ==> users == old(users) && stats == old(stats) && error == Some(LoadFailed)))
      ensures loading == old(loading) && currentUser == old(currentUser) && query == old(query)
      ensures showAddModal == old(showAddModal) && formData == old(formData) && editingUser == old(editingUser)
    {
      if !confirmed {
        request := None;
        return;
      }
      request := Some(userId);
      contentLoading := true;
      if delete.Threw? {
        error := Some(DeleteFailedPrefix + delete.message);
      } else {
        success := Some(Deleted);
        FetchUsers(refetch);
      }
      contentLoading := false;
    }
  }

  /** Editing a user and saving with a successful update writes the copied form to that user's
      row, and to no other. */
  method EditThenSave(table: seq<UserRow>, u: UserRow, today: string) returns (after: seq<UserRow>)
    ensures |after| == |table|
    ensures forall i :: 0 <= i < |table| && table[i].id != u.id ==> after[i] == table[i]
    ensures forall i :: 0 <= i < |table| && table[i].id == u.id ==>
      after[i] == UpdatedRow(table[i], FormFromUser(u, today))
  {
    var page := new UserManagementPage(today);
    page.HandleEdit(u, today);
    var request := page.HandleSubmit(today, Ok(()), Ok(table));
    after := ApplyUpdate(table, request.value);
  }
}
