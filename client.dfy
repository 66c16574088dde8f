/**
 * `OKXClient` of okxpy/client.py: resolve the four credentials (from a
 * credentials file or from the explicit arguments), refuse to go on when
 * one is missing, then build one `OKXAuth` and hand it to every service
 * client. The credentials file arrives already parsed, as a map.
 */
module Client {
  import opened Wrappers
  import opened Py
  import opened Auth
  import opened Dispatch

  /** The four values `__init__` stores in `self.api_key` … `self.project_id`, possibly missing. */
  datatype Fields = Fields(apiKey: Option<string>, secretKey: Option<string>,
                           passphrase: Option<string>, projectId: Option<string>)

  /**
   * Where the fields come from. With a credentials path the file's
   * `access_key`, `secret_key`, `passphrase` and `access_project` are read in
   * that order, and the first one missing raises `KeyError`; without one the
   * explicit arguments are taken as they are.
   */
  function ReadFields(credentialsPath: Option<string>, file: map<string, string>, args: Fields)
    : (r: Result<Fields, PyError>)
    ensures !Given(credentialsPath) ==> r == Success(args)
    ensures Given(credentialsPath) ==>
      (r.Success? <==> "access_key" in file && "secret_key" in file && "passphrase" in file && "access_project" in file)
    ensures Given(credentialsPath) && r.Success? ==>
      r.value == Fields(Some(file["access_key"]), Some(file["secret_key"]),
                        Some(file["passphrase"]), Some(file["access_project"]))
    ensures Given(credentialsPath) && r.Failure? ==>
      r.error == KeyError(if "access_key" !in file then "access_key"
                          else if "secret_key" !in file then "secret_key"
                          else if "passphrase" !in file then "passphrase"
                          else "access_project")
  {
    if !Given(credentialsPath) then Success(args)
    else if "access_key" !in file then Failure(KeyError("access_key"))
    else if "secret_key" !in file then Failure(KeyError("secret_key"))
    else if "passphrase" !in file then Failure(KeyError("passphrase"))
    else if "access_project" !in file then Failure(KeyError("access_project"))
    else Success(Fields(Some(file["access_key"]), Some(file["secret_key"]),
                        Some(file["passphrase"]), Some(file["access_project"])))
  }

  /** `if not all([...]): raise ValueError(...)`, then `OKXAuth(...)` from exactly those values. */
  function Validate(f: Fields): (r: Result<OKXAuth, PyError>)
    ensures r.Success? <==> Given(f.apiKey) && Given(f.secretKey) && Given(f.passphrase) && Given(f.projectId)
    ensures r.Failure? ==> r.error == ValueError("Missing required credentials")
    ensures r.Success? ==>
      r.value == OKXAuth(f.apiKey.value, f.secretKey.value, f.passphrase.value, f.projectId.value)
  {
    if Given(f.apiKey) && Given(f.secretKey) && Given(f.passphrase) && Given(f.projectId) then
      Success(OKXAuth(f.apiKey.value, f.secretKey.value, f.passphrase.value, f.projectId.value))
    else
      Failure(ValueError("Missing required credentials"))
  }

  /**
   * A service client whose code is not part of this model
   * (`MarketplaceClient`, `DefiClient`): all that is known of it is the auth
   * object it was given.
   */
  datatype OpaqueService = OpaqueService(auth: OKXAuth)

  class OKXClient {
    var apiKey: Option<string>
    var secretKey: Option<string>
    var passphrase: Option<string>
    var projectId: Option<string>
    var auth: OKXAuth
    var wallet: DomainClient
    var dex: DomainClient
    var marketplace: OpaqueService
    var defi: OpaqueService

    /** Every service client holds the client's own auth object. */
    predicate SharesAuth()
      reads this
    {
      wallet == DomainClient(auth, WalletService) && dex == DomainClient(auth, DexService) &&
      marketplace.auth == auth && defi.auth == auth
    }

    /** The part of `__init__` after validation: store the fields, the auth object and the clients. */
    constructor Wire(f: Fields, a: OKXAuth)
      ensures apiKey == f.apiKey && secretKey == f.secretKey
      ensures passphrase == f.passphrase && projectId == f.projectId
      ensures auth == a && SharesAuth()
    {
      apiKey, secretKey, passphrase, projectId := f.apiKey, f.secretKey, f.passphrase, f.projectId;
      auth := a;
      wallet := DomainClient(a, WalletService);
      dex := DomainClient(a, DexService);
      marketplace := OpaqueService(a);
      defi := OpaqueService(a);
    }

    /**
     * `OKXClient(credentials_path, api_key, secret_key, passphrase, project_id)`:
     * either the `KeyError`/`ValueError` that `__init__` raises, before any
     * auth object exists, or a new client whose auth holds exactly the
     * resolved credentials and is shared by all four service clients.
     */
    static method Create(credentialsPath: Option<string>, file: map<string, string>, args: Fields)
      returns (r: Result<OKXClient, PyError>)
      ensures ReadFields(credentialsPath, file, args).Failure? ==> r == Failure(ReadFields(credentialsPath, file, args).error)
      ensures ReadFields(credentialsPath, file, args).Success? ==>
        var f := ReadFields(credentialsPath, file, args).value;
        && (Validate(f).Failure? ==> r == Failure(ValueError("Missing required credentials")))
        && (Validate(f).Success? ==>
              && r.Success? && fresh(r.value)
              && r.value.auth == Validate(f).value && r.value.SharesAuth()
              && r.value.apiKey == f.apiKey && r.value.secretKey == f.secretKey
              && r.value.passphrase == f.passphrase && r.value.projectId == f.projectId)
    {
      var read := ReadFields(credentialsPath, file, args);
      if read.Failure? {
        return Failure(read.error);
      }
      var checked := Validate(read.value);
      if checked.Failure? {
        return Failure(checked.error);
      }
      var c := new OKXClient.Wire(read.value, checked.value);
      return Success(c);
    }
  }
}
