/**
 * The fluent connection-string builder: every setter appends one fixed-form
 * fragment to a private buffer, and the terminal operations read the buffer back.
 */
module ConnectionStrings {

  /** A C# `int`. */
  newtype int32 = x: int | -0x8000_0000 <= x < 0x8000_0000

  /** The decimal digit character for `d`. */
  function DigitChar(d: nat): (c: char)
    requires d < 10
    ensures '0' <= c <= '9'
  {
    "0123456789"[d]
  }

  /** The value of a decimal digit character. */
  function DigitValue(c: char): nat
  {
    if '0' <= c <= '9' then (c as int - '0' as int) as nat else 0
  }

  /** The decimal digits of `n`, most significant first, without leading zeros. */
  function NatToString(n: nat): (s: string)
    ensures |s| > 0
    ensures forall i :: 0 <= i < |s| ==> '0' <= s[i] <= '9'
    ensures s[0] == '0' ==> n == 0
  {
    if n < 10 then [DigitChar(n)] else NatToString(n / 10) + [DigitChar(n % 10)]
  }

  /** The value of a string of decimal digits. */
  function ParseNat(s: string): nat
  {
    if s == [] then 0 else 10 * ParseNat(s[..|s| - 1]) + DigitValue(s[|s| - 1])
  }

  /** `Int32.ToString()`: optional minus sign, then the decimal digits of the magnitude. */
  function IntToString(n: int32): (s: string)
    ensures |s| > 0
    ensures '0' <= s[|s| - 1] <= '9'
    ensures s[0] == '-' <==> n < 0
  {
    if n < 0 then "-" + NatToString(-(n as int)) else NatToString(n as int)
  }

  /** Reading the digits back gives the number: the decimal form loses nothing. */
  lemma {:induction false} ParseNatToString(n: nat)
    ensures ParseNat(NatToString(n)) == n
  {
    var s := NatToString(n);
    if n >= 10 {
      ParseNatToString(n / 10);
      assert s[..|s| - 1] == NatToString(n / 10);
      assert DigitValue(s[|s| - 1]) == n % 10;
    } else {
      assert s[..0] == [];
    }
  }

  /** One call on the builder, with its argument. */
  datatype Setting =
    | Server(server: string)
    | DataBase(dataBase: string)
    | UserId(userId: string)
    | Password(password: string)
    | EnableEncryption
    | DisableEncryption
    | EnableTrustedConnection
    | EnableMARS
    | NetworkLibrary(networkLibrary: string)
    | AttachDbFilename(path: string)
    | EnableIntegratedSecurity
    | EnableAsynchronousProcessing
    | EnableUserInstance
    | SetMaximumPacketSize(size: int32)

  /** The text a call appends to the buffer, verbatim, irregular ones included. */
  function Fragment(s: Setting): (f: string)
    ensures |f| > 0
    ensures f[0] == ' ' <==> !(s.EnableUserInstance? || s.SetMaximumPacketSize?)
    ensures !(s.AttachDbFilename? || s.SetMaximumPacketSize?) ==> f[|f| - 1] == ';'
    ensures s.SetMaximumPacketSize? ==> '0' <= f[|f| - 1] <= '9'
  {
    match s
    case Server(server) => " Server=" + server + ";"
    case DataBase(dataBase) => " Database=" + dataBase + ";"
    case UserId(userId) => " User Id=" + userId + ";"
    case Password(password) => " Password=" + password + ";"
    case EnableEncryption => " Encrypt=true;"
    case DisableEncryption => " Encrypt=false;"
    case EnableTrustedConnection => " Trusted_Connection=true;"
    case EnableMARS => " MultipleActiveResultSets=true;"
    case NetworkLibrary(networkLibrary) => " Network Library=" + networkLibrary + ";"
    case AttachDbFilename(path) => " AttachDbFilename=" + path
    case EnableIntegratedSecurity => " Integrated Security=true;"
    case EnableAsynchronousProcessing => " Asynchronous Processing=true;"
    case EnableUserInstance => "User Instance = true;"
    case SetMaximumPacketSize(size) => "Packet Size=" + IntToString(size)
  }

  /** The pieces `f(x)` of the elements of `xs`, concatenated in order. */
  function Join<T>(xs: seq<T>, f: T -> string): string
  {
    if xs == [] then "" else Join(xs[..|xs| - 1], f) + f(xs[|xs| - 1])
  }

  /** Joining distributes over concatenation. */
  lemma {:induction false} JoinConcat<T>(a: seq<T>, b: seq<T>, f: T -> string)
    ensures Join(a + b, f) == Join(a, f) + Join(b, f)
  {
    if b != [] {
      var n := |b| - 1;
      assert (a + b)[..|a + b| - 1] == a + b[..n];
      assert (a + b)[|a + b| - 1] == b[n];
      JoinConcat(a, b[..n], f);
    } else {
      assert a + b == a;
    }
  }

  /** The buffer after a sequence of calls: their fragments concatenated in call order. */
  function Render(calls: seq<Setting>): string
  {
    Join(calls, Fragment)
  }

  /** Rendering distributes over concatenation of call sequences: nothing is merged or dropped. */
  lemma RenderConcat(a: seq<Setting>, b: seq<Setting>)
    ensures Render(a + b) == Render(a) + Render(b)
  {
    JoinConcat(a, b, Fragment);
  }

  /**
   * The buffer is empty exactly when no setter has been called: every
   * fragment has fixed non-empty text.
   */
  lemma {:induction false} RenderEmpty(calls: seq<Setting>)
    ensures Render(calls) == "" <==> calls == []
    ensures |Render(calls)| >= |calls|
  {
    if calls != [] {
      RenderEmpty(calls[..|calls| - 1]);
    }
  }

  /** Each earlier fragment stays where it was: the buffer is a prefix of every later buffer. */
  lemma RenderPrefix(a: seq<Setting>, b: seq<Setting>)
    ensures |Render(a)| <= |Render(a + b)| && Render(a + b)[..|Render(a)|] == Render(a)
  {
    RenderConcat(a, b);
  }

  /** Conflicting settings are both kept, in call order; nothing is overridden. */
  lemma ConflictingSettingsKept(calls: seq<Setting>)
    ensures Render(calls + [EnableEncryption, DisableEncryption]) == Render(calls) + " Encrypt=true;" + " Encrypt=false;"
  {
    var flags := [EnableEncryption, DisableEncryption];
    RenderConcat(calls, flags);
    assert flags[..1] == [EnableEncryption] && flags[..1][..0] == [];
    assert Join(flags[..1], Fragment) == Join([], Fragment) + Fragment(EnableEncryption);
    assert Join(flags, Fragment) == Join(flags[..1], Fragment) + Fragment(DisableEncryption);
  }

  /** The value a built connection string wraps. */
  datatype DefaultConnectionString = DefaultConnectionString(connectionString: string)
  {
    /** The only validity test a connection string has: it is non-empty. */
    predicate VerifyConnectionString(): (ok: bool)
      ensures ok <==> |connectionString| > 0
    {
      connectionString != ""
    }
  }

  /** The builder; `connectionString` is its string buffer, `calls` the calls made so far. */
  class ConnectionStringBuilder {
    var connectionString: string
    ghost var calls: seq<Setting>

    /** The buffer holds the fragments of the calls made so far, in call order. */
    ghost predicate Valid()
      reads this
    {
      connectionString == Render(calls)
    }

    constructor ()
      ensures Valid() && calls == [] && connectionString == ""
    {
      connectionString := "";
      calls := [];
    }

    /** Appends the fragment of `setting` and records the call. */
    method Append(setting: Setting)
      requires Valid()
      modifies this
      ensures Valid()
      ensures calls == old(calls) + [setting]
      ensures connectionString == old(connectionString) + Fragment(setting)
    {
      connectionString := connectionString + Fragment(setting);
      calls := calls + [setting];
    }

    method Server(server: string := ".") returns (builder: ConnectionStringBuilder)
      requires Valid()
      modifies this
      ensures Valid() && builder == this && calls == old(calls) + [Setting.Server(server)]
      ensures connectionString == old(connectionString) + " Server=" + server + ";"
    {
      Append(Setting.Server(server));
      builder := this;
    }

    method DataBase(dataBase: string := "master") returns (builder: ConnectionStringBuilder)
      requires Valid()
      modifies this
      ensures Valid() && builder == this && calls == old(calls) + [Setting.DataBase(dataBase)]
      ensures connectionString == old(connectionString) + " Database=" + dataBase + ";"
    {
      Append(Setting.DataBase(dataBase));
      builder := this;
    }

    method UserId(userId: string := "SA") returns (builder: ConnectionStringBuilder)
      requires Valid()
      modifies this
      ensures Valid() && builder == this && calls == old(calls) + [Setting.UserId(userId)]
      ensures connectionString == old(connectionString) + " User Id=" + userId + ";"
    {
      Append(Setting.UserId(userId));
      builder := this;
    }

    method Password(password: string) returns (builder: ConnectionStringBuilder)
      requires Valid()
      modifies this
      ensures Valid() && builder == this && calls == old(calls) + [Setting.Password(password)]
      ensures connectionString == old(connectionString) + " Password=" + password + ";"
    {
      Append(Setting.Password(password));
      builder := this;
    }

    method EnableEncryption() returns (builder: ConnectionStringBuilder)
      requires Valid()
      modifies this
      ensures Valid() && builder == this && calls == old(calls) + [Setting.EnableEncryption]
      ensures connectionString == old(connectionString) + " Encrypt=true;"
    {
      Append(Setting.EnableEncryption);
      builder := this;
    }

    method DisableEncryption() returns (builder: ConnectionStringBuilder)
      requires Valid()
      modifies this
      ensures Valid() && builder == this && calls == old(calls) + [Setting.DisableEncryption]
      ensures connectionString == old(connectionString) + " Encrypt=false;"
    {
      Append(Setting.DisableEncryption);
      builder := this;
    }

    method EnableTrustedConnection() returns (builder: ConnectionStringBuilder)
      requires Valid()
      modifies this
      ensures Valid() && builder == this && calls == old(calls) + [Setting.EnableTrustedConnection]
      ensures connectionString == old(connectionString) + " Trusted_Connection=true;"
    {
      Append(Setting.EnableTrustedConnection);
      builder := this;
    }

    method EnableMARS() returns (builder: ConnectionStringBuilder)
      requires Valid()
      modifies this
      ensures Valid() && builder == this && calls == old(calls) + [Setting.EnableMARS]
      ensures connectionString == old(connectionString) + " MultipleActiveResultSets=true;"
    {
      Append(Setting.EnableMARS);
      builder := this;
    }

    method NetworkLibrary(networkLibrary: string := "DBMSSOCN") returns (builder: ConnectionStringBuilder)
      requires Valid()
      modifies this
      ensures Valid() && builder == this && calls == old(calls) + [Setting.NetworkLibrary(networkLibrary)]
      ensures connectionString == old(connectionString) + " Network Library=" + networkLibrary + ";"
    {
      Append(Setting.NetworkLibrary(networkLibrary));
      builder := this;
    }

    /** The one fragment with an argument and no trailing `;`. */
    method AttachDbFilename(path: string) returns (builder: ConnectionStringBuilder)
      requires Valid()
      modifies this
      ensures Valid() && builder == this && calls == old(calls) + [Setting.AttachDbFilename(path)]
      ensures connectionString == old(connectionString) + " AttachDbFilename=" + path
    {
      Append(Setting.AttachDbFilename(path));
      builder := this;
    }

    method EnableIntegratedSecurity() returns (builder: ConnectionStringBuilder)
      requires Valid()
      modifies this
      ensures Valid() && builder == this && calls == old(calls) + [Setting.EnableIntegratedSecurity]
      ensures connectionString == old(connectionString) + " Integrated Security=true;"
    {
      Append(Setting.EnableIntegratedSecurity);
      builder := this;
    }

    method EnableAsynchronousProcessing() returns (builder: ConnectionStringBuilder)
      requires Valid()
      modifies this
      ensures Valid() && builder == this && calls == old(calls) + [Setting.EnableAsynchronousProcessing]
      ensures connectionString == old(connectionString) + " Asynchronous Processing=true;"
    {
      Append(Setting.EnableAsynchronousProcessing);
      builder := this;
    }

    /** No leading space, and spaces around `=`. */
    method EnableUserInstance() returns (builder: ConnectionStringBuilder)
      requires Valid()
      modifies this
      ensures Valid() && builder == this && calls == old(calls) + [Setting.EnableUserInstance]
      ensures connectionString == old(connectionString) + "User Instance = true;"
    {
      Append(Setting.EnableUserInstance);
      builder := this;
    }

    /** No leading space and no trailing `;`. */
    method SetMaximumPacketSize(size: int32) returns (builder: ConnectionStringBuilder)
      requires Valid()
      modifies this
      ensures Valid() && builder == this && calls == old(calls) + [Setting.SetMaximumPacketSize(size)]
      ensures connectionString == old(connectionString) + "Packet Size=" + IntToString(size)
    {
      Append(Setting.SetMaximumPacketSize(size));
      builder := this;
    }

    /** Reads the buffer back: the fragments of all calls so far, in call order. */
    method BuildAsString() returns (s: string)
      requires Valid()
      ensures s == Render(calls)
      ensures s == "" <==> calls == []
    {
      RenderEmpty(calls);
      s := connectionString;
    }

    /** Wraps the buffer; the result passes the non-empty check exactly when some setter was called. */
    method BuildAsDefaultConnectionString() returns (c: DefaultConnectionString)
      requires Valid()
      ensures c.connectionString == Render(calls)
      ensures c.VerifyConnectionString() <==> calls != []
    {
      RenderEmpty(calls);
      c := DefaultConnectionString(connectionString);
    }
  }

  /**
   * A fluent chain with default arguments, built twice: both builds agree and
   * hold the fragments in call order, the conflicting encryption flags both kept.
   */
  method BuildExample() returns (s: string, again: string, c: DefaultConnectionString)
    ensures s == " Server=" + "." + ";" + " Database=" + "master" + ";" + " User Id=" + "SA" + ";"
               + " Encrypt=true;" + " Encrypt=false;"
    ensures again == s
    ensures c.connectionString == s && c.VerifyConnectionString()
  {
    var builder := new ConnectionStringBuilder();
    var b := builder.Server();
    assert b.connectionString == " Server=" + "." + ";";
    b := b.DataBase();
    b := b.UserId();
    b := b.EnableEncryption();
    b := b.DisableEncryption();
    s := b.BuildAsString();
    again := b.BuildAsString();
    c := b.BuildAsDefaultConnectionString();
  }
}
