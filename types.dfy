/** Value types shared by the screens of the portal. */
module Types {

  /** An optional value; the admin panel's `selectedPatient` starts out absent. */
  datatype Option<+T> = None | Some(value: T)

  /** The role a session runs under: the source's `'patient' | 'admin'` union. */
  datatype Role = Patient | Admin
}
