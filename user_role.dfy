/** The two signed-in roles, `'doctor' | 'patient'`, shared by the application shell and the components. */
module UserRoles {

  datatype Role = Doctor | Patient
}
