/** The authority derivation done when a user signs in. */
module UserDetailsService {

  /** A stored user; the password is carried along untouched. */
  datatype User = User(username: string, password: string, role: string)

  /** The signed-in principal: the stored user and the authorities granted. */
  datatype UserDetails = UserDetails(user: User, authorities: set<string>)

  datatype LoadResult = Loaded(details: UserDetails) | UsernameNotFound(username: string)

  const RoleEmployee := "ROLE_EMPLOYEE"
  const RoleAdmin := "ROLE_ADMIN"

  /** `loadUserByUsername`: an unknown name raises the not-found error;
      otherwise every user is an employee, and an admin as well exactly when
      the stored role says so. */
  method LoadUserByUsername(users: map<string, User>, username: string) returns (r: LoadResult)
    ensures r == UsernameNotFound(username) <==> username !in users
    ensures r.Loaded? <==> username in users
    ensures r.Loaded? ==> r.details.user == users[username]
    ensures r.Loaded? ==> RoleEmployee in r.details.authorities
    ensures r.Loaded? ==> (RoleAdmin in r.details.authorities <==> users[username].role == RoleAdmin)
    ensures r.Loaded? ==> r.details.authorities <= {RoleEmployee, RoleAdmin}
    ensures r.Loaded? ==> 1 <= |r.details.authorities| <= 2
  {
    if username !in users {
      return UsernameNotFound(username);
    }
    var user := users[username];
    var authorities: set<string> := {};
    authorities := authorities + {RoleEmployee};
    if user.role == RoleAdmin {
      authorities := authorities + {RoleAdmin};
    }
    return Loaded(UserDetails(user, authorities));
  }
}
