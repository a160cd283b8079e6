/**
  The Person entity and its transfer object.  A Person is a record value;
  a PersonDTO is an object with a setter.  Every field is a Java reference
  that may be null, so each is an Option.
 */
module PersonDtos {
  import opened Exceptions

  datatype LocalDate = LocalDate(year: int, month: int, day: int)

  datatype Person = Person(
    id: Option<int>,
    firstName: Option<string>,
    lastName: Option<string>,
    email: Option<string>,
    birthDate: Option<LocalDate>
  )

  /** The argument of equals(Object): null, a PersonDTO, or an object of another class. */
  datatype JavaObject = Null | Dto(dto: PersonDTO) | OtherObject

  function ObjectFootprint(obj: JavaObject): set<object> {
    if obj.Dto? then {obj.dto} else {}
  }

  /** `mine.equals(theirs)` for a field of the receiver: a null receiver field throws. */
  function FieldEquals<T(==)>(mine: Option<T>, theirs: Option<T>): Result<bool> {
    if mine.None? then Throw(NullPointerException) else Ok(theirs == mine)
  }

  /** Java's `a && b` on two boolean computations that may throw. */
  function AndThen(a: Result<bool>, b: Result<bool>): Result<bool> {
    match a
    case Throw(_) => a
    case Ok(holds) => if holds then b else a
  }

  class PersonDTO {
    var id: Option<int>
    var firstName: Option<string>
    var lastName: Option<string>
    var email: Option<string>
    var birthDate: Option<LocalDate>
    var address: Option<string>
    var hobbies: Option<set<string>>

    /** The state `new PersonDTO(p)` leaves: p's five fields, and no address or hobbies. */
    ghost predicate IsCopyOf(p: Person)
      reads this
    {
      && id == p.id && firstName == p.firstName && lastName == p.lastName
      && email == p.email && birthDate == p.birthDate
      && address == None && hobbies == None
    }

    /** The five fields equals compares agree with another DTO's. */
    ghost predicate SameData(other: PersonDTO)
      reads this, other
    {
      && id == other.id && firstName == other.firstName && lastName == other.lastName
      && email == other.email && birthDate == other.birthDate
    }

    /** None of the five fields equals reads from the receiver is null. */
    predicate DataNonNull()
      reads this
    {
      id.Some? && firstName.Some? && lastName.Some? && email.Some? && birthDate.Some?
    }

    /** new PersonDTO(id, firstName, lastName, email, birthDate) */
    constructor (id: Option<int>, firstName: Option<string>, lastName: Option<string>,
                 email: Option<string>, birthDate: Option<LocalDate>)
      ensures this.id == id && this.firstName == firstName && this.lastName == lastName
      ensures this.email == email && this.birthDate == birthDate
      ensures address == None && hobbies == None
    {
      this.id := id;
      this.firstName := firstName;
      this.lastName := lastName;
      this.email := email;
      this.birthDate := birthDate;
      address := None;
      hobbies := None;
    }

    /** new PersonDTO(person): the id only when the person has one. */
    constructor FromPerson(person: Person)
      ensures IsCopyOf(person)
    {
      id := None;
      if person.id.Some? {
        id := person.id;
      }
      firstName := person.firstName;
      lastName := person.lastName;
      email := person.email;
      birthDate := person.birthDate;
      address := None;
      hobbies := None;
    }

    method SetId(id: Option<int>)
      modifies this`id
      ensures this.id == id
    {
      this.id := id;
    }

    /**
      toEntity: a Person built from the four data fields, given the DTO's id
      only when that is not null.  As a Person built without an id has a null
      id, the entity's id is the DTO's either way.
     */
    function ToEntity(): (p: Person)
      reads this
      ensures p.id == id
      ensures p.firstName == firstName && p.lastName == lastName
      ensures p.email == email && p.birthDate == birthDate
    {
      var person := Person(None, firstName, lastName, email, birthDate);
      if id.Some? then person.(id := id) else person
    }

    /**
      equals: false for null and for another class; otherwise the five data
      fields compared in order, each with the receiver's field's own equals,
      so a null field of the receiver that is reached throws.
     */
    function Equals(obj: JavaObject): (r: Result<bool>)
      reads this, ObjectFootprint(obj)
      ensures !obj.Dto? ==> r == Ok(false)
      ensures r == Ok(true) <==> obj.Dto? && DataNonNull() && SameData(obj.dto)
      ensures obj.Dto? && DataNonNull() ==> r.Ok?
      ensures r.Throw? ==> r.error == NullPointerException && !DataNonNull()
    {
      match obj
      case Null => Ok(false)
      case OtherObject => Ok(false)
      case Dto(other) =>
        AndThen(FieldEquals(id, other.id),
        AndThen(FieldEquals(firstName, other.firstName),
        AndThen(FieldEquals(lastName, other.lastName),
        AndThen(FieldEquals(email, other.email),
                FieldEquals(birthDate, other.birthDate)))))
    }
  }

  /** Round trip one way: `new PersonDTO(p).toEntity()` is `p`. */
  lemma EntityRoundTrip(dto: PersonDTO, p: Person)
    requires dto.IsCopyOf(p)
    ensures dto.ToEntity() == p
  {
  }

  /** Round trip the other way: `new PersonDTO(dto.toEntity())` has dto's five data fields. */
  lemma DtoRoundTrip(dto: PersonDTO, copy: PersonDTO)
    requires copy.IsCopyOf(dto.ToEntity())
    ensures copy.SameData(dto)
  {
  }

  /** setId leaves every other field as it was (the frame of SetId says so). */
  method SetIdKeepsData(dto: PersonDTO, id: Option<int>)
    modifies dto
    ensures dto.id == id
    ensures dto.firstName == old(dto.firstName) && dto.lastName == old(dto.lastName)
    ensures dto.email == old(dto.email) && dto.birthDate == old(dto.birthDate)
    ensures dto.address == old(dto.address) && dto.hobbies == old(dto.hobbies)
  {
    dto.SetId(id);
  }

  /**
    Two DTOs made from the same person with no null data field are equal
    whatever their addresses and hobbies; the handler tests rely on this to
    match DTOs read back from JSON against DTOs made from entities.
   */
  lemma CopiesAreEqual(a: PersonDTO, b: PersonDTO, p: Person)
    requires a.IsCopyOf(p)
    requires b.id == p.id && b.firstName == p.firstName && b.lastName == p.lastName
    requires b.email == p.email && b.birthDate == p.birthDate
    requires p.id.Some? && p.firstName.Some? && p.lastName.Some? && p.email.Some? && p.birthDate.Some?
    ensures a.Equals(Dto(b)) == Ok(true) && b.Equals(Dto(a)) == Ok(true)
  {
  }

  /** equals is symmetric between DTOs whose data fields are all non-null. */
  lemma EqualsSymmetric(a: PersonDTO, b: PersonDTO)
    requires a.DataNonNull() && b.DataNonNull()
    ensures a.Equals(Dto(b)) == b.Equals(Dto(a))
  {
  }

  /**
    getEntities: a new DTO for every person.  Every DTO in the result is a
    copy of some person, and every person has a copy in the result.
   */
  method GetEntities(persons: set<Person>) returns (dtos: set<PersonDTO>)
    ensures forall d :: d in dtos ==> fresh(d)
    ensures forall d :: d in dtos ==> exists q :: q in persons && d.IsCopyOf(q)
    ensures forall q :: q in persons ==> exists d :: d in dtos && d.IsCopyOf(q)
  {
    dtos := {};
    var todo := persons;
    while todo != {}
      invariant todo <= persons
      invariant forall d :: d in dtos ==> fresh(d)
      invariant forall d :: d in dtos ==> exists q :: q in persons && d.IsCopyOf(q)
      invariant forall q :: q in persons - todo ==> exists d :: d in dtos && d.IsCopyOf(q)
      decreases todo
    {
      var p :| p in todo;
      ghost var done := persons - todo;
      var dto := new PersonDTO.FromPerson(p);
      dtos := dtos + {dto};
      todo := todo - {p};
      forall q | q in persons - todo
        ensures exists d :: d in dtos && d.IsCopyOf(q)
      {
        if q == p {
          assert dto in dtos && dto.IsCopyOf(q);
        } else {
          assert q in done;
        }
      }
    }
    assert persons - todo == persons;
  }
}
