/**
 * The mechanic form: the two password validators and the cleaning of the
 * submitted values (trimmed optional texts, the kept username, the dropped
 * password fields).
 */
module MecanicoForm {

  import opened Wrappers
  import opened Text

  datatype Validacion = Aceptada | Rechazada(mensaje: string)

  /** A JS string is truthy when present and non-empty. */
  predicate Lleno(o: Option<string>)
  {
    o.Some? && o.value != ""
  }

  /** An empty password means "do not change it"; otherwise it needs at least 6 characters. */
  function ValidatePassword(value: Option<string>): (r: Validacion)
    ensures r.Aceptada? <==> !Lleno(value) || |value.value| >= 6
    ensures r.Rechazada? ==> r.mensaje == "La contraseña debe tener al menos 6 caracteres"
  {
    if !Lleno(value) then Aceptada
    else if |value.value| < 6 then Rechazada("La contraseña debe tener al menos 6 caracteres")
    else Aceptada
  }

  /** The confirmation is rejected only when a password was typed and differs from it. */
  function ValidateConfirmPassword(password: Option<string>, value: Option<string>): (r: Validacion)
    ensures r.Rechazada? <==> Lleno(password) && value != password
    ensures r.Rechazada? ==> r.mensaje == "Las contraseñas no coinciden"
  {
    if Lleno(password) && password != value then Rechazada("Las contraseñas no coinciden")
    else Aceptada
  }

  /** Both validators accept a password of 6 or more characters repeated in the confirmation. */
  lemma ContrasenaRepetida(p: string)
    requires |p| >= 6
    ensures ValidatePassword(Some(p)).Aceptada? && ValidateConfirmPassword(Some(p), Some(p)).Aceptada?
  {
  }

  /** A typed password passes confirmation only if the confirmation is that same text. */
  lemma ConfirmacionExacta(p: string, c: Option<string>)
    requires p != ""
    requires ValidateConfirmPassword(Some(p), c).Aceptada?
    ensures c == Some(p)
  {
  }

  /** The account linked to the mechanic being edited: `usuario` or `username`, whichever is filled. */
  datatype Usuario = Usuario(usuario: Option<string>, username: Option<string>)

  /** `u.usuario || u.username`. */
  function NombreActual(u: Usuario): (r: Option<string>)
    ensures Lleno(u.usuario) ==> r == u.usuario
    ensures !Lleno(u.usuario) ==> r == u.username
  {
    if Lleno(u.usuario) then u.usuario else u.username
  }

  /** Whether the mechanic already has an account (the password tab starts hidden). */
  predicate TieneUsuario(u: Option<Usuario>)
  {
    u.Some? && Lleno(NombreActual(u.value))
  }

  /** The mechanic being edited; `None` in the create form. */
  datatype Inicial = Inicial(usuario: Option<Usuario>)

  /** The form values; `None` is a field left undefined. */
  datatype Valores = Valores(nombre: Option<string>, especialidad: Option<string>, telefono: Option<string>,
                             email: Option<string>, direccion: Option<string>, observaciones: Option<string>,
                             activo: bool, username: Option<string>,
                             password: Option<string>, confirmPassword: Option<string>)

  /** `v?.trim() || null` as a relation between the typed and the sent value. */
  predicate Limpio(typed: Option<string>, sent: Option<string>)
  {
    (sent.None? <==> typed.None? || IsBlank(typed.value))
    && (sent.Some? ==> sent.value == Trim(typed.value))
  }

  /** `!u || u.trim() === ''`. */
  predicate UsernameVacio(u: Option<string>)
  {
    u.None? || Trim(u.value) == ""
  }

  /**
   * The values handed to `onSubmit`. A password field that is deleted is `None`
   * here; when kept it is passed through as typed.
   */
  method Limpiar(values: Valores, inicial: Option<Inicial>, editandoPassword: bool) returns (limpios: Valores)
    ensures limpios.nombre == values.nombre && limpios.activo == values.activo
    ensures Limpio(values.telefono, limpios.telefono) && Limpio(values.email, limpios.email)
    ensures Limpio(values.direccion, limpios.direccion) && Limpio(values.observaciones, limpios.observaciones)
    ensures Limpio(values.especialidad, limpios.especialidad)
    ensures inicial.Some? && inicial.value.usuario.Some? && UsernameVacio(values.username)
            ==> limpios.username == NombreActual(inicial.value.usuario.value)
    ensures !(inicial.Some? && inicial.value.usuario.Some? && UsernameVacio(values.username))
            ==> limpios.username == values.username
    ensures inicial.Some? && !editandoPassword && !Lleno(values.password)
            ==> limpios.password.None? && limpios.confirmPassword.None?
    ensures !(inicial.Some? && !editandoPassword && !Lleno(values.password))
            ==> limpios.password == values.password && limpios.confirmPassword == values.confirmPassword
  {
    var username := values.username;
    if inicial.Some? && inicial.value.usuario.Some? && UsernameVacio(values.username) {
      username := NombreActual(inicial.value.usuario.value);
    }
    var password, confirmPassword := values.password, values.confirmPassword;
    if inicial.Some? && !editandoPassword && !Lleno(values.password) {
      password, confirmPassword := None, None;
    }
    limpios := Valores(values.nombre, TrimOrNull(values.especialidad), TrimOrNull(values.telefono),
                       TrimOrNull(values.email), TrimOrNull(values.direccion), TrimOrNull(values.observaciones),
                       values.activo, username, password, confirmPassword);
  }

  /**
   * Editing a mechanic who has an account, with the username cleared and the
   * password untouched: the account's name is sent and no password is.
   */
  method EdicionSinCambios(values: Valores, u: Usuario) returns (limpios: Valores)
    requires TieneUsuario(Some(u))
    requires UsernameVacio(values.username) && !Lleno(values.password)
    ensures Lleno(limpios.username) && limpios.username == NombreActual(u)
    ensures limpios.password.None? && limpios.confirmPassword.None?
  {
    limpios := Limpiar(values, Some(Inicial(Some(u))), false);
  }
}
