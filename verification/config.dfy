/**
  The application settings the core reads (config/config.go), the choice of
  database driver, and the secret generator.
 */
module Config {
  import opened Common

  datatype OAuthClient = OAuthClient(clientId: string, clientSecret: string, redirectUri: string)

  /** The fields of `AppConfig` that the modelled code reads. */
  datatype AppConfig = AppConfig(
    username: string,
    password: string,
    apiKey: string,
    dbType: string,
    dbConn: string,
    defaultPoints: int,
    googleOAuth: OAuthClient,
    gitHubOAuth: OAuthClient,
    wechatOAuth: OAuthClient)

  /** The driver `GetDialector` opens, with its connection string. */
  datatype Dialector = MySql(dsn: string) | Postgres(dsn: string) | Sqlite(dsn: string)

  /**
    `GetDialector`: exactly the three supported database types succeed, each
    with its own driver over the configured connection string.
   */
  function GetDialector(cfg: AppConfig): (r: Result<Dialector>)
    ensures r.Ok? <==> cfg.dbType in {"mysql", "postgres", "sqlite"}
    ensures r.Ok? ==> r.value.dsn == cfg.dbConn
    ensures r.Ok? ==> (r.value.MySql? <==> cfg.dbType == "mysql")
    ensures r.Ok? ==> (r.value.Postgres? <==> cfg.dbType == "postgres")
    ensures r.Ok? ==> (r.value.Sqlite? <==> cfg.dbType == "sqlite")
    ensures r.Err? ==> r.failure.message == "不支持的数据库类型: " + cfg.dbType
  {
    match cfg.dbType
    case "mysql" => Ok(MySql(cfg.dbConn))
    case "postgres" => Ok(Postgres(cfg.dbConn))
    case "sqlite" => Ok(Sqlite(cfg.dbConn))
    case _ => Err(Failure(StatusInternalServerError, "不支持的数据库类型: " + cfg.dbType))
  }

  const Charset: string := "abcdefghijklmnopqrstuvwxyzABCDEFGHIJKLMNOPQRSTUVWXYZ0123456789"

  /**
    What `/dev/urandom` gave: it could not be opened, a read failed, or a read
    filled the first `|bytes|` bytes of the buffer (a read never returns more
    bytes than the buffer holds).
   */
  datatype RandomSource = OpenFailed | ReadFailed | Read(bytes: seq<byte>)

  /** Character `i` of the fallback secret, used when no random bytes are available. */
  function FallbackChar(i: nat): char {
    Charset[i % |Charset|]
  }

  /** Writes the fallback secret into the buffer: character `i` is `Charset[i mod 62]`. */
  method FillFallback(b: array<char>)
    modifies b
    ensures forall k :: 0 <= k < b.Length ==> b[k] == FallbackChar(k)
  {
    for i := 0 to b.Length
      invariant forall k :: 0 <= k < i ==> b[k] == FallbackChar(k)
    {
      b[i] := Charset[i % |Charset|];
    }
  }

  /** Replaces every byte of the buffer, in place, by the charset character it selects modulo 62. */
  method MapToCharset(b: array<char>)
    modifies b
    ensures forall k :: 0 <= k < b.Length ==> b[k] == Charset[old(b[k]) as int % |Charset|]
  {
    for i := 0 to b.Length
      invariant forall k :: 0 <= k < i ==> b[k] == Charset[old(b[k]) as int % |Charset|]
      invariant forall k :: i <= k < b.Length ==> b[k] == old(b[k])
    {
      b[i] := Charset[b[i] as int % |Charset|];
    }
  }

  /**
    `GenerateRandomSecret`: a buffer of `length` bytes, filled from the random
    source when it could be read, is overwritten in place with charset
    characters; when the source fails, character `i` is `Charset[i mod 62]`.
   */
  method GenerateRandomSecret(length: nat, source: RandomSource) returns (secret: string)
    requires source.Read? ==> |source.bytes| <= length
    ensures |secret| == length
    ensures forall i :: 0 <= i < length ==> secret[i] in Charset
    ensures !source.Read? ==> forall i :: 0 <= i < length ==> secret[i] == FallbackChar(i)
    ensures source.Read? ==> forall i :: 0 <= i < length ==>
              secret[i] == Charset[(if i < |source.bytes| then source.bytes[i] as int else 0) % |Charset|]
  {
    // the byte buffer of the source, each byte held as the character of that code
    var b := new char[length](_ => 0 as char);
    if !source.Read? {
      FillFallback(b);
      forall i | 0 <= i < length
        ensures b[i] in Charset
      {
        CharsetHas(i % |Charset|);
      }
    } else {
      var bytes := source.bytes;
      // the read fills the front of the zeroed buffer
      forall k | 0 <= k < |bytes| {
        b[k] := bytes[k] as int as char;
      }
      ghost var raw := b[..];
      MapToCharset(b);
      forall i | 0 <= i < length
        ensures b[i] in Charset
      {
        CharsetHas(raw[i] as int % |Charset|);
      }
    }
    secret := b[..];
  }

  lemma CharsetHas(j: int)
    requires 0 <= j < |Charset|
    ensures Charset[j] in Charset
  {
  }
}
