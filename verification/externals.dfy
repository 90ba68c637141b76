/** The foreign libraries the core calls, as function-valued parameters.

    jsonwebtoken (`jwt.sign` / `jwt.verify` under the server's secret), bcryptjs
    (`bcrypt.hash` / `bcrypt.compare`), joi's `.email()` and the ObjectId format check are
    not modelled internally; `Lawful` states the only facts the model relies on. */
module Externals {
  import opened Base

  /** The JWT payload `{id, isAdmin}` that `generateToken` signs and `verifyToken` attaches as `req.user`. */
  datatype Claims = Claims(id: string, isAdmin: bool)

  /** What an update document's `$set: {field: undefined}` does to the stored field.
      Mongoose 6 and later drop undefined keys from updates (`StripUndefined`); Mongoose 5 by
      default sends them and the driver stores `null` (`StoreNull`). The model is stated for both. */
  datatype SetPolicy = StripUndefined | StoreNull

  /** The configuration and library primitives a request handler runs against. */
  datatype Env = Env(
    sign: Claims -> string,             // jwt.sign(payload, JWT_SECRET)
    verify: string -> Option<Claims>,   // jwt.verify(token, JWT_SECRET); None when it throws
    hash: (string, string) -> string,   // bcrypt.hash(password, salt)
    compare: (string, string) -> bool,  // bcrypt.compare(password, hash)
    isEmail: string -> bool,            // joi's string().email()
    isObjectId: string -> bool,         // ObjectId.isValid, and joi-objectid's pattern
    setPolicy: SetPolicy)

  /** The laws of the libraries: a signed payload verifies to itself, a compact JWT has no
      space in it, an empty credential never verifies ("jwt must be provided"), and a password
      matches every hash made of it whatever the salt. */
  ghost predicate Lawful(env: Env) {
    && (forall c :: env.verify(env.sign(c)) == Some(c))
    && (forall c :: ' ' !in env.sign(c))
    && env.verify("") == None
    && (forall password, salt :: env.compare(password, env.hash(password, salt)))
  }
}
